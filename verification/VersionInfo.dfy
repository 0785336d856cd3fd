/**
 * The VS_VERSIONINFO resource written by tool/release/windows_version_info.py and
 * a walker that reads it back: nested blocks with a 16-bit length, a
 * NUL-terminated UTF-16 key, a value and children, each part on a multiple of four.
 */
module VersionInfo {
  import opened Common
  import opened Versions

  type Byte = b: int | 0 <= b < 256
  type Bytes = seq<Byte>

  /** A UTF-16 code unit. */
  type Unit = u: int | 0 <= u < 0x1_0000

  // ----- little-endian numbers and UTF-16 -----

  function U16(n: int): (r: Bytes)
    requires 0 <= n < 0x1_0000
    ensures |r| == 2
  {
    [n % 256, n / 256]
  }

  function ReadU16(s: Bytes): Unit
    requires |s| >= 2
  {
    s[0] as int + 256 * s[1] as int
  }

  lemma ReadU16Of(n: int, tail: Bytes)
    requires 0 <= n < 0x1_0000
    ensures ReadU16(U16(n) + tail) == n
  {
  }

  /** `key.encode("utf-16-le")`, the key given by its code units. */
  function Utf16(key: seq<Unit>): (r: Bytes)
    ensures |r| == 2 * |key|
  {
    if key == [] then [] else U16(key[0]) + Utf16(key[1..])
  }

  // ----- blocks -----

  /** The padding that brings an offset to a multiple of four: Python's `-n % 4`. */
  function Pad(offset: nat): (n: nat)
    ensures n < 4 && (offset + n) % 4 == 0
  {
    (4 - offset % 4) % 4
  }

  function Zeros(n: nat): (r: Bytes)
    ensures |r| == n
  {
    seq(n, i => 0)
  }

  function KeyField(key: seq<Unit>): (r: Bytes)
    ensures |r| == 2 * |key| + 2
  {
    Utf16(key) + [0, 0]
  }

  /** Where the value and the children of a block start, and where it ends. */
  function ValueStart(key: seq<Unit>): (n: nat)
    ensures n % 4 == 0 && n >= 8
  {
    var end := 6 + 2 * |key| + 2;
    end + Pad(end)
  }

  function ChildrenStart(key: seq<Unit>, valueSize: nat): (n: nat)
    ensures n % 4 == 0 && n >= ValueStart(key) + valueSize
  {
    var end := ValueStart(key) + valueSize;
    end + Pad(end)
  }

  function Body(key: seq<Unit>, value: Bytes, children: Bytes): (r: Bytes)
    ensures |r| + 6 == ChildrenStart(key, |value|) + |children|
  {
    KeyField(key) + (Zeros(ValueStart(key) - 6 - |KeyField(key)|)
      + (value + (Zeros(ChildrenStart(key, |value|) - ValueStart(key) - |value|) + children)))
  }

  function ValueLength(value: Bytes, text: bool): nat {
    if text then |value| / 2 else |value|
  }

  /** `_block`: packing fails when the block does not fit a 16-bit length. */
  method Block(key: seq<Unit>, value: Bytes, children: Bytes, text: bool) returns (r: Result<Bytes>)
    ensures r.Ok? <==> ChildrenStart(key, |value|) + |children| < 0x1_0000
    ensures r == Packed(key, value, children, text)
  {
    var body := KeyField(key);
    body := body + Zeros(Pad(|body| + 6));
    body := body + value;
    body := body + Zeros(Pad(|body| + 6));
    body := body + children;
    var key_, a, b := KeyField(key), Zeros(Pad(|KeyField(key)| + 6)), Zeros(Pad(ValueStart(key) + |value|));
    assert body == (((key_ + a) + value) + b) + children;
    assert body == key_ + (a + (value + (b + children)));
    var length := if text then |value| / 2 else |value|;
    if |body| + 6 >= 0x1_0000 || length >= 0x1_0000 {
      return Err("struct.error");
    }
    return Ok(U16(|body| + 6) + U16(length) + U16(if text then 1 else 0) + body);
  }

  function Packed(key: seq<Unit>, value: Bytes, children: Bytes, text: bool): (r: Result<Bytes>)
    ensures r.Ok? ==> |r.value| == ChildrenStart(key, |value|) + |children|
    ensures r.Ok? <==> ChildrenStart(key, |value|) + |children| < 0x1_0000
  {
    var body := Body(key, value, children);
    if |body| + 6 >= 0x1_0000 then Err("struct.error")
    else Ok(U16(|body| + 6) + U16(ValueLength(value, text)) + U16(if text then 1 else 0) + body)
  }

  // ----- trees of blocks -----

  datatype Node = Node(key: seq<Unit>, value: Bytes, text: bool, children: seq<Node>)

  /** What the format can represent: keys without NUL, text values of whole code units. */
  predicate Representable(node: Node) {
    && (forall i | 0 <= i < |node.key| :: node.key[i] != 0)
    && (node.text ==> |node.value| % 2 == 0)
    && forall i | 0 <= i < |node.children| :: Representable(node.children[i])
  }

  function Encode(node: Node): Result<Bytes> {
    var children := EncodeAll(node.children);
    if children.Err? then children else Packed(node.key, node.value, children.value, node.text)
  }

  /** `b"".join` over the encoded nodes. */
  function EncodeAll(nodes: seq<Node>): Result<Bytes> {
    if nodes == [] then Ok([]) else
    var first := Encode(nodes[0]);
    if first.Err? then first else
    var rest := EncodeAll(nodes[1..]);
    if rest.Err? then rest else Ok(first.value + rest.value)
  }

  /** The length of a block and of a list of blocks. */
  function Size(node: Node): nat {
    ChildrenStart(node.key, |node.value|) + SizeAll(node.children)
  }

  function SizeAll(nodes: seq<Node>): nat {
    if nodes == [] then 0 else Size(nodes[0]) + SizeAll(nodes[1..])
  }

  /** Every block ends on a multiple of four, and nothing but its 16-bit length limits it. */
  lemma {:induction false} EncodeFits(node: Node)
    ensures Encode(node).Ok? <==> Size(node) < 0x1_0000
    ensures Encode(node).Ok? ==> |Encode(node).value| == Size(node)
    ensures Size(node) % 4 == 0
  {
    EncodeAllFits(node.children);
    Aligned(ChildrenStart(node.key, |node.value|), SizeAll(node.children));
  }

  lemma Aligned(a: nat, b: nat)
    requires a % 4 == 0 && b % 4 == 0
    ensures (a + b) % 4 == 0
  {
  }

  lemma {:induction false} EncodeAllFits(nodes: seq<Node>)
    ensures SizeAll(nodes) < 0x1_0000 ==> EncodeAll(nodes).Ok?
    ensures EncodeAll(nodes).Ok? ==> |EncodeAll(nodes).value| == SizeAll(nodes)
    ensures SizeAll(nodes) % 4 == 0
  {
    if nodes != [] {
      EncodeFits(nodes[0]);
      EncodeAllFits(nodes[1..]);
      Aligned(Size(nodes[0]), SizeAll(nodes[1..]));
    }
  }

  // ----- the walker -----

  /** The code units in front of the first NUL. */
  function ReadKey(s: Bytes): (r: Option<seq<Unit>>)
    ensures r.Some? ==> 2 * |r.value| + 2 <= |s|
  {
    if |s| < 2 then None
    else if ReadU16(s) == 0 then Some([])
    else
      var rest := ReadKey(s[2..]);
      if rest.None? then None else Some([ReadU16(s)] + rest.value)
  }

  /** One block at the front of `s`, and what follows it. */
  function Decode(s: Bytes): (r: Option<(Node, Bytes)>)
    ensures r.Some? ==> |r.value.1| < |s|
    decreases |s|, 0
  {
    if |s| < 6 then None else
    var length, valueLength, text := ReadU16(s), ReadU16(s[2..]), ReadU16(s[4..]) == 1;
    if length < 6 || length > |s| then None else
    var key := ReadKey(s[6..length]);
    if key.None? then None else
    var valueSize := if text then 2 * valueLength else valueLength;
    var from, to := ValueStart(key.value), ChildrenStart(key.value, valueSize);
    if to > length then None else
    var children := DecodeAll(s[to..length]);
    if children.None? then None else
    Some((Node(key.value, s[from..from + valueSize], text, children.value), s[length..]))
  }

  /** Blocks one after the other to the end of `s`. */
  function DecodeAll(s: Bytes): Option<seq<Node>>
    decreases |s|, 1
  {
    if s == [] then Some([]) else
    var first := Decode(s);
    if first.None? then None else
    var rest := DecodeAll(first.value.1);
    if rest.None? then None else Some([first.value.0] + rest.value)
  }

  predicate NulFree(key: seq<Unit>) {
    forall i | 0 <= i < |key| :: key[i] != 0
  }

  lemma {:induction false} ReadKeyOf(key: seq<Unit>, tail: Bytes)
    requires NulFree(key)
    ensures ReadKey(KeyField(key) + tail) == Some(key)
  {
    if key == [] {
      assert KeyField(key) + tail == [0, 0] + tail;
    } else {
      var s := KeyField(key) + tail;
      assert s == U16(key[0]) + (KeyField(key[1..]) + tail);
      ReadU16Of(key[0], KeyField(key[1..]) + tail);
      ReadKeyOf(key[1..], tail);
      assert s[2..] == KeyField(key[1..]) + tail;
      assert [key[0]] + key[1..] == key;
    }
  }

  lemma CutBehind(a: Bytes, b: Bytes, c: Bytes, d: Bytes)
    ensures (a + (b + (c + d)))[|a| + |b|..|a| + |b| + |c|] == c
    ensures (a + (b + (c + d)))[|a| + |b| + |c|..] == d
  {
  }

  /** A packed block, taken apart at the offsets the walker computes. */
  lemma BodyParts(key: seq<Unit>, value: Bytes, children: Bytes)
    ensures
      var body := Body(key, value, children);
      var from, to := ValueStart(key), ChildrenStart(key, |value|);
      && body[from - 6..from - 6 + |value|] == value
      && body[to - 6..] == children
  {
    var pad := Zeros(ValueStart(key) - 6 - |KeyField(key)|);
    var pad' := Zeros(ChildrenStart(key, |value|) - ValueStart(key) - |value|);
    CutBehind(KeyField(key), pad, value, pad' + children);
    var rest := (KeyField(key) + (pad + (value + (pad' + children))));
    assert rest[|KeyField(key)| + |pad| + |value|..][|pad'|..] == children;
  }

  lemma HeaderParts(a: Bytes, b: Bytes, c: Bytes, body: Bytes, rest: Bytes)
    requires |a| == |b| == |c| == 2
    ensures
      var s := a + b + c + body + rest;
      && s == a + (b + c + body + rest) && s[2..] == b + (c + body + rest) && s[4..] == c + (body + rest)
      && s[6..6 + |body|] == body && s[6 + |body|..] == rest
  {
  }

  /** What the walker finds where it looks in a packed block. */
  lemma PackedParts(key: seq<Unit>, value: Bytes, children: Bytes, text: bool, rest: Bytes)
    requires Packed(key, value, children, text).Ok?
    ensures
      var s := Packed(key, value, children, text).value + rest;
      var length := ChildrenStart(key, |value|) + |children|;
      && ReadU16(s) == length && ReadU16(s[2..]) == ValueLength(value, text)
      && ReadU16(s[4..]) == (if text then 1 else 0)
      && s[6..length] == Body(key, value, children) && s[length..] == rest
  {
    var body := Body(key, value, children);
    var a, b, c := U16(|body| + 6), U16(ValueLength(value, text)), U16(if text then 1 else 0);
    HeaderParts(a, b, c, body, rest);
    ReadU16Of(|body| + 6, b + c + body + rest);
    ReadU16Of(ValueLength(value, text), c + body + rest);
    ReadU16Of(if text then 1 else 0, body + rest);
  }

  lemma Inside(s: Bytes, body: Bytes, length: nat, i: nat, k: nat)
    requires 6 <= length <= |s| && s[6..length] == body && i <= k <= |body|
    ensures s[6 + i..6 + k] == body[i..k]
  {
    forall x | 0 <= x < k - i
      ensures s[6 + i..6 + k][x] == body[i..k][x]
    {
      assert s[6..length][i + x] == s[6 + i + x];
    }
  }

  /** `s` starts with a block of these parts and goes on with `rest`. */
  ghost predicate Holds(s: Bytes, key: seq<Unit>, value: Bytes, text: bool, children: Bytes, rest: Bytes) {
    var from, to, length := ValueStart(key), ChildrenStart(key, |value|), ChildrenStart(key, |value|) + |children|;
    && length <= |s| && ReadU16(s) == length
    && (if text then 2 * ReadU16(s[2..]) else ReadU16(s[2..])) == |value|
    && ReadU16(s[4..]) == (if text then 1 else 0)
    && ReadKey(s[6..length]) == Some(key)
    && s[from..from + |value|] == value && s[to..length] == children && s[length..] == rest
  }

  lemma DecodeFrom(s: Bytes, key: seq<Unit>, value: Bytes, text: bool, children: Bytes, rest: Bytes, nodes: seq<Node>)
    requires Holds(s, key, value, text, children, rest) && DecodeAll(children) == Some(nodes)
    ensures Decode(s) == Some((Node(key, value, text, nodes), rest))
  {
  }

  lemma BodyKey(key: seq<Unit>, value: Bytes, children: Bytes)
    requires NulFree(key)
    ensures ReadKey(Body(key, value, children)) == Some(key)
  {
    var body := Body(key, value, children);
    ReadKeyOf(key, body[|KeyField(key)|..]);
    assert body == KeyField(key) + body[|KeyField(key)|..];
  }

  lemma PackedHolds(key: seq<Unit>, value: Bytes, text: bool, children: Bytes, rest: Bytes)
    requires Packed(key, value, children, text).Ok? && NulFree(key) && (text ==> |value| % 2 == 0)
    ensures Holds(Packed(key, value, children, text).value + rest, key, value, text, children, rest)
  {
    var s := Packed(key, value, children, text).value + rest;
    var body, length := Body(key, value, children), ChildrenStart(key, |value|) + |children|;
    PackedParts(key, value, children, text, rest);
    BodyParts(key, value, children);
    BodyKey(key, value, children);
    var from, to := ValueStart(key), ChildrenStart(key, |value|);
    Inside(s, body, length, from - 6, from - 6 + |value|);
    Inside(s, body, length, to - 6, |body|);
  }

  /** Reading back an encoded tree gives exactly the tree, and leaves what follows it. */
  lemma {:induction false} DecodeEncode(node: Node, rest: Bytes)
    requires Representable(node) && Encode(node).Ok?
    ensures Decode(Encode(node).value + rest) == Some((node, rest))
  {
    DecodeEncodeAll(node.children);
    var children := EncodeAll(node.children).value;
    PackedHolds(node.key, node.value, node.text, children, rest);
    DecodeFrom(Encode(node).value + rest, node.key, node.value, node.text, children, rest, node.children);
  }

  lemma {:induction false} DecodeEncodeAll(nodes: seq<Node>)
    requires (forall i | 0 <= i < |nodes| :: Representable(nodes[i])) && EncodeAll(nodes).Ok?
    ensures DecodeAll(EncodeAll(nodes).value) == Some(nodes)
  {
    if nodes != [] {
      EncodeFits(nodes[0]);
      DecodeEncode(nodes[0], EncodeAll(nodes[1..]).value);
      DecodeEncodeAll(nodes[1..]);
      assert [nodes[0]] + nodes[1..] == nodes;
    }
  }

  lemma {:induction false} ReadKeyNulFree(s: Bytes)
    requires ReadKey(s).Some?
    ensures NulFree(ReadKey(s).value)
  {
    if ReadU16(s) != 0 {
      ReadKeyNulFree(s[2..]);
    }
  }

  /** Whatever the walker reads is representable. */
  lemma {:induction false} DecodedIsRepresentable(s: Bytes)
    requires Decode(s).Some?
    ensures Representable(Decode(s).value.0)
    decreases |s|, 0
  {
    var inner := DecodedParts(s);
    DecodedAreRepresentable(inner);
  }

  lemma DecodedParts(s: Bytes) returns (inner: Bytes)
    requires Decode(s).Some?
    ensures |inner| < |s| && DecodeAll(inner) == Some(Decode(s).value.0.children)
    ensures var node := Decode(s).value.0;
      && NulFree(node.key)
      && |node.value| == if node.text then 2 * ReadU16(s[2..]) else ReadU16(s[2..])
  {
    var length := ReadU16(s);
    var key := ReadKey(s[6..length]).value;
    ReadKeyNulFree(s[6..length]);
    var size := if ReadU16(s[4..]) == 1 then 2 * ReadU16(s[2..]) else ReadU16(s[2..]);
    inner := s[ChildrenStart(key, size)..length];
  }

  lemma {:induction false} DecodedAreRepresentable(s: Bytes)
    requires DecodeAll(s).Some?
    ensures forall i | 0 <= i < |DecodeAll(s).value| :: Representable(DecodeAll(s).value[i])
    decreases |s|, 1
  {
    if s != [] {
      DecodedIsRepresentable(s);
      DecodedAreRepresentable(Decode(s).value.1);
    }
  }

  /** The format carries exactly the trees with NUL-free keys and text values of even length. */
  lemma RoundTripIff(node: Node, rest: Bytes)
    requires Encode(node).Ok?
    ensures Decode(Encode(node).value + rest) == Some((node, rest)) <==> Representable(node)
  {
    if Representable(node) {
      DecodeEncode(node, rest);
    }
    if Decode(Encode(node).value + rest) == Some((node, rest)) {
      DecodedIsRepresentable(Encode(node).value + rest);
    }
  }

  // ----- the version resource -----

  /** `version_parts`: four numbers of at most 16 bits. */
  function VersionParts(version: string): (r: Result<seq<nat>>)
    ensures r.Ok? ==> |r.value| == 4 && forall i | 0 <= i < 4 :: r.value[i] <= 65535
  {
    var f := Parse(version);
    if f.None? then Err("Invalid Windows product version") else
    var numbers := Numbers(f.value);
    if exists i | 0 <= i < |numbers| :: numbers[i] > 65535 then Err("Windows version components must be at most 65535")
    else Ok(numbers)
  }

  function U32(n: int): (r: Bytes)
    requires 0 <= n < 0x1_0000_0000
    ensures |r| == 4
  {
    U16(n % 0x1_0000) + U16(n / 0x1_0000)
  }

  function Units(s: string): seq<Unit> {
    if s == "" then [] else
    var code := s[0] as int;
    (if code < 0x1_0000 then [code]
      else [0xD800 + (code - 0x1_0000) / 0x400, 0xDC00 + (code - 0x1_0000) % 0x400]) + Units(s[1..])
  }

  /** `(value + "\0").encode("utf-16-le")`. */
  function Text(value: string): (r: Bytes)
    ensures |r| % 2 == 0
  {
    Utf16(Units(value) + [0])
  }

  /** VS_FIXEDFILEINFO with the file and the product version in two halves each. */
  function FixedInfo(parts: seq<nat>): Bytes
    requires |parts| == 4 && forall i | 0 <= i < 4 :: parts[i] <= 65535
  {
    var high, low := parts[0] * 0x1_0000 + parts[1], parts[2] * 0x1_0000 + parts[3];
    U32(0xFEEF04BD) + U32(0x10000) + U32(high) + U32(low) + U32(high) + U32(low)
      + U32(0x3F) + U32(0) + U32(0x40004) + U32(1) + U32(0) + U32(0) + U32(0)
  }

  const Language: Unit := 0x409
  const CodePage: Unit := 1200

  datatype Property = Property(name: string, value: string)

  /** The fixed names of the format and of its one string table. */
  datatype Keys = Keys(root: string, strings: string, table: string, vars: string, translation: string)

  function Leaf(p: Property): Node {
    Node(Units(p.name), Text(p.value), true, [])
  }

  function Leaves(properties: seq<Property>): (r: seq<Node>)
    ensures |r| == |properties|
  {
    seq(|properties|, i requires 0 <= i < |properties| => Leaf(properties[i]))
  }

  /** The tree `version_resource` packs. */
  function Resource(keys: Keys, fixed: Bytes, properties: seq<Property>): Node {
    var table := Node(Units(keys.table), [], true, Leaves(properties));
    var strings := Node(Units(keys.strings), [], true, [table]);
    var translation := Node(Units(keys.translation), U16(Language) + U16(CodePage), false, []);
    Node(Units(keys.root), fixed, false, [strings, Node(Units(keys.vars), [], true, [translation])])
  }

  function StandardKeys(): Keys {
    Keys("VS_VERSION_INFO", "StringFileInfo", "040904b0", "VarFileInfo", "Translation")
  }

  /** The properties of a build; `stem` is the file name without its suffix. */
  function Properties(version: string, filename: string, stem: string): seq<Property> {
    [Property("CompanyName", "Se7e Sistemas"), Property("FileDescription", "Plug Agente"),
     Property("FileVersion", version), Property("InternalName", stem),
     Property("LegalCopyright", "Copyright (c) 2026 Se7e Sistemas"), Property("OriginalFilename", filename),
     Property("ProductName", "Plug Agente"), Property("ProductVersion", version)]
  }

  /** `version_resource`. */
  function VersionResource(version: string, filename: string, stem: string): Result<Bytes> {
    var parts := VersionParts(version);
    if parts.Err? then Err(parts.reason)
    else Encode(Resource(StandardKeys(), FixedInfo(parts.value), Properties(version, filename, stem)))
  }

  // ----- reading the properties back -----

  function HexDigit(d: nat): char
    requires d < 16
  {
    "0123456789abcdef"[d]
  }

  /** Python's `{n:04x}` for a 16-bit number. */
  function Hex4(n: Unit): string {
    [HexDigit(n / 0x1000), HexDigit(n / 0x100 % 0x10), HexDigit(n / 0x10 % 0x10), HexDigit(n % 0x10)]
  }

  /** The first child with the key. */
  function Child(nodes: seq<Node>, key: seq<Unit>): Option<Node> {
    if nodes == [] then None
    else if nodes[0].key == key then Some(nodes[0])
    else Child(nodes[1..], key)
  }

  /** The value at a path below a node, as `VerQueryValue` finds it. */
  function Query(node: Node, path: seq<string>): Option<Bytes>
    decreases |path|
  {
    if path == [] then Some(node.value) else
    var child := Child(node.children, Units(path[0]));
    if child.None? then None else Query(child.value, path[1..])
  }

  /** `read_version_info` for one attribute: the translation names the string table to look in. */
  function Attribute(keys: Keys, root: Node, name: string): Option<Bytes> {
    var translation := Query(root, [keys.vars, keys.translation]);
    if translation.None? || |translation.value| < 4 then None else
    var table := Hex4(ReadU16(translation.value)) + Hex4(ReadU16(translation.value[2..]));
    Query(root, [keys.strings, table, name])
  }

  predicate Plain(s: string) {
    forall i | 0 <= i < |s| :: 0 < s[i] as int < 128
  }

  lemma {:induction false} UnitsPlain(s: string)
    requires Plain(s)
    ensures |Units(s)| == |s| && (forall i | 0 <= i < |s| :: Units(s)[i] == s[i] as int) && NulFree(Units(s))
  {
    if s != "" {
      UnitsPlain(s[1..]);
    }
  }

  lemma UnitsInjective(a: string, b: string)
    requires Plain(a) && Plain(b)
    ensures Units(a) == Units(b) <==> a == b
  {
    UnitsPlain(a);
    UnitsPlain(b);
    if Units(a) == Units(b) {
      assert forall i | 0 <= i < |a| :: Units(a)[i] == a[i] as int && Units(b)[i] == b[i] as int;
    }
  }

  predicate PlainKeys(keys: Keys) {
    && Plain(keys.root) && Plain(keys.strings) && Plain(keys.table) && Plain(keys.vars) && Plain(keys.translation)
    && keys.strings != keys.vars
  }

  predicate PlainNames(properties: seq<Property>) {
    && (forall i | 0 <= i < |properties| :: Plain(properties[i].name))
    && (forall i, k | 0 <= i < k < |properties| :: properties[i].name != properties[k].name)
  }

  lemma LeavesRepresentable(properties: seq<Property>)
    requires PlainNames(properties)
    ensures forall i | 0 <= i < |properties| :: Representable(Leaves(properties)[i])
  {
    forall i | 0 <= i < |properties|
      ensures Representable(Leaves(properties)[i])
    {
      UnitsPlain(properties[i].name);
    }
  }

  lemma ResourceRepresentable(keys: Keys, fixed: Bytes, properties: seq<Property>)
    requires PlainKeys(keys) && PlainNames(properties)
    ensures Representable(Resource(keys, fixed, properties))
  {
    LeavesRepresentable(properties);
    UnitsPlain(keys.root);
    UnitsPlain(keys.strings);
    UnitsPlain(keys.table);
    UnitsPlain(keys.vars);
    UnitsPlain(keys.translation);
    var table := Node(Units(keys.table), [], true, Leaves(properties));
    assert Representable(table);
    var strings := Node(Units(keys.strings), [], true, [table]);
    assert Representable(strings);
    var translation := Node(Units(keys.translation), U16(Language) + U16(CodePage), false, []);
    assert Representable(translation);
    assert Representable(Node(Units(keys.vars), [], true, [translation]));
  }

  lemma {:induction false} ChildAt(nodes: seq<Node>, i: nat)
    requires i < |nodes| && forall k | 0 <= k < i :: nodes[k].key != nodes[i].key
    ensures Child(nodes, nodes[i].key) == Some(nodes[i])
  {
    if i > 0 {
      ChildAt(nodes[1..], i - 1);
    }
  }

  lemma LeafAt(properties: seq<Property>, i: nat)
    requires PlainNames(properties) && i < |properties|
    ensures Child(Leaves(properties), Units(properties[i].name)) == Some(Leaf(properties[i]))
  {
    forall k | 0 <= k < i
      ensures Leaves(properties)[k].key != Leaves(properties)[i].key
    {
      UnitsInjective(properties[k].name, properties[i].name);
    }
    ChildAt(Leaves(properties), i);
  }

  /** The translation leads to the string table that was written. */
  lemma TranslationNamesTable()
    ensures Hex4(Language) + Hex4(CodePage) == "040904b0"
  {
  }

  lemma QueryStep(node: Node, path: seq<string>, i: nat)
    requires path != [] && i < |node.children| && node.children[i].key == Units(path[0])
    requires forall k | 0 <= k < i :: node.children[k].key != Units(path[0])
    ensures Query(node, path) == Query(node.children[i], path[1..])
  {
    ChildAt(node.children, i);
  }

  lemma QueryTranslation(keys: Keys, fixed: Bytes, properties: seq<Property>)
    requires PlainKeys(keys)
    ensures Query(Resource(keys, fixed, properties), [keys.vars, keys.translation]) ==
      Some(U16(Language) + U16(CodePage))
  {
    var root := Resource(keys, fixed, properties);
    var path := [keys.vars, keys.translation];
    UnitsInjective(keys.strings, keys.vars);
    QueryStep(root, path, 1);
    QueryStep(root.children[1], path[1..], 0);
  }

  lemma QueryProperty(keys: Keys, fixed: Bytes, properties: seq<Property>, i: nat)
    requires PlainKeys(keys) && PlainNames(properties) && i < |properties|
    ensures Query(Resource(keys, fixed, properties), [keys.strings, keys.table, properties[i].name]) ==
      Some(Text(properties[i].value))
  {
    var root := Resource(keys, fixed, properties);
    var path := [keys.strings, keys.table, properties[i].name];
    QueryStep(root, path, 0);
    QueryStep(root.children[0], path[1..], 0);
    LeafAt(properties, i);
    assert path[1..][1..] == [properties[i].name];
    assert Query(root.children[0].children[0], [properties[i].name]) == Query(Leaf(properties[i]), []);
  }

  /** Packed, walked and queried through its own translation, every property comes back. */
  lemma PropertiesReadBack(keys: Keys, fixed: Bytes, properties: seq<Property>, i: nat)
    requires PlainKeys(keys) && PlainNames(properties) && i < |properties| && keys.table == "040904b0"
    requires Encode(Resource(keys, fixed, properties)).Ok?
    ensures
      var root := Decode(Encode(Resource(keys, fixed, properties)).value);
      && root == Some((Resource(keys, fixed, properties), []))
      && Attribute(keys, root.value.0, properties[i].name) == Some(Text(properties[i].value))
  {
    var resource := Resource(keys, fixed, properties);
    ResourceRepresentable(keys, fixed, properties);
    DecodeEncode(resource, []);
    assert Encode(resource).value + [] == Encode(resource).value;
    QueryTranslation(keys, fixed, properties);
    QueryProperty(keys, fixed, properties, i);
    TranslationNamesTable();
    ReadU16Of(Language, U16(CodePage));
    assert (U16(Language) + U16(CodePage))[2..] == U16(CodePage) + [];
    ReadU16Of(CodePage, []);
  }

  lemma StandardKeysPlain()
    ensures PlainKeys(StandardKeys())
  {
    RootKeysPlain();
    TableKeysPlain();
  }

  lemma RootKeysPlain()
    ensures Plain("VS_VERSION_INFO") && Plain("StringFileInfo") && "StringFileInfo" != "VarFileInfo"
  {
    assert "StringFileInfo"[0] == 'S' && "VarFileInfo"[0] == 'V';
  }

  lemma TableKeysPlain()
    ensures Plain("040904b0") && Plain("VarFileInfo") && Plain("Translation")
  {
  }

  lemma NamesPlain(version: string, filename: string, stem: string)
    ensures forall i | 0 <= i < 8 :: Plain(Properties(version, filename, stem)[i].name)
  {
    FirstNamesPlain();
    LastNamesPlain();
  }

  lemma FirstNamesPlain()
    ensures Plain("CompanyName") && Plain("FileDescription") && Plain("FileVersion") && Plain("InternalName")
  {
  }

  lemma LastNamesPlain()
    ensures Plain("LegalCopyright") && Plain("OriginalFilename") && Plain("ProductName") && Plain("ProductVersion")
  {
  }

  /** The property names differ in length or in their first characters. */
  lemma NamesDiffer(version: string, filename: string, stem: string)
    ensures var p := Properties(version, filename, stem);
      forall i, k | 0 <= i < k < 8 :: p[i].name != p[k].name
  {
    var p := Properties(version, filename, stem);
    assert |p[0].name| == 11 && |p[1].name| == 15 && |p[2].name| == 11 && |p[3].name| == 12;
    assert |p[4].name| == 14 && |p[5].name| == 16 && |p[6].name| == 11 && |p[7].name| == 14;
    assert p[0].name[0] == 'C' && p[2].name[0] == 'F' && p[6].name[0] == 'P';
    assert p[4].name[0] == 'L' && p[7].name[0] == 'P';
  }

  /** Whatever the file name: if `version_resource` returns, every property can be read back from the bytes. */
  lemma VersionResourceReadsBack(version: string, filename: string, stem: string, i: nat)
    requires VersionResource(version, filename, stem).Ok? && i < 8
    ensures
      var root := Decode(VersionResource(version, filename, stem).value);
      var p := Properties(version, filename, stem)[i];
      && root.Some? && root.value.1 == [] && root.value.0.value == FixedInfo(VersionParts(version).value)
      && Attribute(StandardKeys(), root.value.0, p.name) == Some(Text(p.value))
  {
    var fixed, properties := FixedInfo(VersionParts(version).value), Properties(version, filename, stem);
    StandardKeysPlain();
    NamesPlain(version, filename, stem);
    NamesDiffer(version, filename, stem);
    PropertiesReadBack(StandardKeys(), fixed, properties, i);
  }
}
