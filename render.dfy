/** The arithmetic and text helpers of the kill image in ImageGenerator.js:
    the inventory layout of `generateKillImage`, `getStableColor`,
    `formatGuildName` and `getEquipmentImageUrl`. */
module Render {
  import opened Text
  import opened Events

  const CanvasWidth: int := 1200
  const TopHeight: int := 800
  const InvIcon: int := 80
  const InvPad: int := 8
  const InvMarginX: int := 30
  const InvMarginY: int := 20

  /** `Math.max(1, Math.floor((width - 2 * 30 + 8) / (80 + 8)))`: as many
      icons as fit between the margins, and at least one. */
  function ItemsPerRow(width: int): (r: int)
    ensures r >= 1
    ensures r > 1 ==> r * (InvIcon + InvPad) <= width - InvMarginX * 2 + InvPad < (r + 1) * (InvIcon + InvPad)
  {
    var fit := (width - InvMarginX * 2 + InvPad) / (InvIcon + InvPad);
    if fit > 1 then fit else 1
  }

  /** The canvas of the bot holds 13 icons per row. */
  lemma ThirteenPerRow()
    ensures ItemsPerRow(CanvasWidth) == 13
  {
  }

  datatype Layout = Layout(itemsPerRow: int, invRows: nat, invHeight: int, height: int)

  /** Rows needed for `n` icons, `per` to a row: `Math.ceil(n / per)`. */
  function RowsFor(n: nat, per: int): (rows: nat)
    requires per >= 1
    ensures n == 0 <==> rows == 0
    ensures n > 0 ==> (rows - 1) * per < n <= rows * per
  {
    var q := (n + per - 1) / per;
    assert q * per <= n + per - 1 < (q + 1) * per;
    q
  }

  /** The inventory section of `generateKillImage` for `n` inventory items on
      a canvas `width` wide with a top card `topHeight` tall. */
  function InventoryLayout(n: nat, width: int, topHeight: int): (l: Layout)
    ensures l.itemsPerRow == ItemsPerRow(width)
    ensures n == 0 ==> l.invRows == 0
    ensures n > 0 ==> (l.invRows - 1) * l.itemsPerRow < n <= l.invRows * l.itemsPerRow
    ensures l.invHeight > 0 <==> n > 0
    ensures l.height == topHeight <==> n == 0
  {
    var per := ItemsPerRow(width);
    var rows := if n > 0 then RowsFor(n, per) else 0;
    var invHeight := if n > 0 then InvMarginY * 2 + rows * (InvIcon + InvPad) - InvPad + 50 else 0;
    Layout(per, rows, invHeight, topHeight + (if invHeight > 0 then invHeight + 20 else 0))
  }

  /** Every inventory icon, placed row by row as `drawInventory` does, lies
      on the canvas: the row of item `i` exists and its bottom edge is above
      the canvas's. */
  lemma IconsInsideCanvas(n: nat, i: nat)
    requires i < n
    ensures var l := InventoryLayout(n, CanvasWidth, TopHeight);
      i / l.itemsPerRow < l.invRows &&
      TopHeight + 10 + InvMarginY + 20 + (i / l.itemsPerRow) * (InvIcon + InvPad) + InvIcon <= l.height
  {
    var l := InventoryLayout(n, CanvasWidth, TopHeight);
    assert l.itemsPerRow == 13;
    var row := i / 13;
    assert row * 13 <= i;
  }

  /** The UTF-16 code units of a string, as `charCodeAt` sees them: one unit
      for a character below U+10000, a surrogate pair above. */
  function CodeUnits(s: string): (r: seq<int>)
    ensures |r| >= |s|
    ensures forall i :: 0 <= i < |r| ==> 0 <= r[i] < 0x1_0000
    decreases |s|
  {
    if s == [] then []
    else
      var c := s[0] as int;
      var unit := if c < 0x1_0000 then [c] else [0xD800 + (c - 0x1_0000) / 0x400, 0xDC00 + (c - 0x1_0000) % 0x400];
      unit + CodeUnits(s[1..])
  }

  const TwoTo32: int := 0x1_0000_0000

  /** The hash of `getStableColor`: `hash = (hash * 31 + unit) >>> 0` over the
      code units, kept in the unsigned 32-bit range. */
  function Hash(units: seq<int>): (h: int)
    ensures 0 <= h < TwoTo32
    decreases |units|
  {
    if units == [] then 0 else (Hash(units[..|units| - 1]) * 31 + units[|units| - 1]) % TwoTo32
  }

  /** The signed 32-bit view `>>` and `&` take of a number. */
  function ToInt32(h: int): int {
    if h >= 0x8000_0000 then h - TwoTo32 else h
  }

  /** `80 + ((hash >> shift) & 0x7f)` with `unit` = 2^shift: the arithmetic
      shift of the signed view is a floor division, and `& 0x7f` keeps the low
      seven bits. */
  function Channel(h: int, unit: int): (c: int)
    requires unit > 0
    ensures 80 <= c <= 207
  {
    80 + (ToInt32(h) / unit) % 128
  }

  /** The signed view makes no difference: each channel is seven bits of the
      unsigned hash, at bit 0, 8 or 16. */
  lemma ChannelIsUnsignedBits(h: int)
    requires 0 <= h < TwoTo32
    ensures Channel(h, 1) == 80 + h % 128
    ensures Channel(h, 0x100) == 80 + (h / 0x100) % 128
    ensures Channel(h, 0x1_0000) == 80 + (h / 0x1_0000) % 128
  {
    LowBits(h);
    MiddleBits(h);
    HighBits(h);
  }

  lemma LowBits(h: int)
    requires 0 <= h < TwoTo32
    ensures ToInt32(h) % 128 == h % 128
  {
    if h >= 0x8000_0000 {
      var d := h / 128;
      assert h == d * 128 + h % 128;
      assert ToInt32(h) == (d - 0x200_0000) * 128 + h % 128;
    }
  }

  lemma MiddleBits(h: int)
    requires 0 <= h < TwoTo32
    ensures ToInt32(h) / 0x100 % 128 == h / 0x100 % 128
  {
    if h >= 0x8000_0000 {
      var d := h / 0x100;
      assert h == d * 0x100 + h % 0x100;
      assert ToInt32(h) == (d - 0x100_0000) * 0x100 + h % 0x100;
      assert ToInt32(h) / 0x100 == d - 0x100_0000;
      assert d - 0x100_0000 == (d / 128 - 0x2_0000) * 128 + d % 128;
    }
  }

  lemma HighBits(h: int)
    requires 0 <= h < TwoTo32
    ensures ToInt32(h) / 0x1_0000 % 128 == h / 0x1_0000 % 128
  {
    if h >= 0x8000_0000 {
      var d := h / 0x1_0000;
      assert h == d * 0x1_0000 + h % 0x1_0000;
      assert ToInt32(h) == (d - 0x1_0000) * 0x1_0000 + h % 0x1_0000;
      assert ToInt32(h) / 0x1_0000 == d - 0x1_0000;
      assert d - 0x1_0000 == (d / 128 - 0x200) * 128 + d % 128;
    }
  }

  /** The CSS colour text `rgb(r,g,b)`. */
  function Rgb(r: int, g: int, b: int): string {
    "rgb(" + DecimalString(r) + "," + DecimalString(g) + "," + DecimalString(b) + ")"
  }

  /** The colour of a hash: red from bits 0-6, green from 8-14, blue from 16-22. */
  function ColorOf(h: int): string {
    Rgb(Channel(h, 1), Channel(h, 0x100), Channel(h, 0x1_0000))
  }

  /** `getStableColor(name)`; a missing name is the empty string. */
  method GetStableColor(name: string) returns (color: string)
    ensures color == ColorOf(Hash(CodeUnits(name)))
  {
    var units := CodeUnits(name);
    var hash := 0;
    for i := 0 to |units|
      invariant hash == Hash(units[..i])
    {
      assert units[..i + 1][..i] == units[..i];
      hash := (hash * 31 + units[i]) % TwoTo32;
    }
    assert units[..|units|] == units;
    var r := 80 + ToInt32(hash) / 1 % 128;
    var g := 80 + (ToInt32(hash) / 0x100) % 128;
    var b := 80 + (ToInt32(hash) / 0x1_0000) % 128;
    color := Rgb(r, g, b);
  }

  /** The empty name is grey: the hash stays 0. */
  lemma EmptyNameColor()
    ensures ColorOf(Hash(CodeUnits(""))) == Rgb(80, 80, 80)
  {
    assert CodeUnits("") == [];
    assert Hash([]) == 0;
    assert Channel(0, 1) == 80 && Channel(0, 0x100) == 80 && Channel(0, 0x1_0000) == 80;
  }

  /** `formatGuildName(allianceName, guildName)`: the guild, prefixed by the
      alliance in brackets when there is one. A missing name is "". */
  function FormatGuildName(allianceName: string, guildName: string): (r: string)
    ensures |r| >= |guildName| && r[|r| - |guildName|..] == guildName
    ensures allianceName == "" ==> r == guildName
    ensures allianceName != "" ==>
      |r| == |allianceName| + |guildName| + 3 && r[0] == '[' &&
      r[1..|allianceName| + 1] == allianceName && r[|allianceName| + 1..|allianceName| + 3] == "] "
  {
    if allianceName != "" then "[" + allianceName + "] " + guildName else guildName
  }

  const RenderItemBase: string := "https://render.albiononline.com/v1/item/"

  /** `getEquipmentImageUrl(item)`: the render service's icon URL, or "" for
      a slot without a type; count and quality default to 1. */
  function EquipmentImageUrl(it: Item): (url: string)
    ensures url == "" <==> it.itemType == ""
    ensures it.itemType != "" ==>
      |url| > |RenderItemBase| + |it.itemType| &&
      url[..|RenderItemBase|] == RenderItemBase &&
      url[|RenderItemBase|..|RenderItemBase| + |it.itemType|] == it.itemType
  {
    if it.itemType == "" then ""
    else
      var rest := ".png?count=" + DecimalString(CountOf(it)) + "&quality=" + DecimalString(QualityOf(it));
      var url := RenderItemBase + it.itemType + rest;
      assert url == RenderItemBase + (it.itemType + rest);
      assert (it.itemType + rest)[..|it.itemType|] == it.itemType;
      url
  }

  /** A missing count or quality asks for the same icon as an explicit 1. */
  lemma UrlDefaultsToOne(it: Item)
    ensures EquipmentImageUrl(it.(count := 0)) == EquipmentImageUrl(it.(count := 1))
    ensures EquipmentImageUrl(it.(quality := 0)) == EquipmentImageUrl(it.(quality := 1))
  {
  }
}
