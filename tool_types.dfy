/** The driver's table of logical device types (wcmType) and the check of a
    requested type against the key capabilities the kernel reports. */
module ToolTypes {
  import opened Wrappers
  import opened Kernel

  /** Tool key codes of linux/input.h. */
  const BTN_TOOL_PEN: nat := 0x140
  const BTN_TOOL_RUBBER: nat := 0x141
  const BTN_TOOL_FINGER: nat := 0x145
  const BTN_TOOL_MOUSE: nat := 0x146
  const BTN_TOOL_DOUBLETAP: nat := 0x14d

  datatype TypeEntry = TypeEntry(name: string, tool: nat)

  /** The table, in the order that decides auto-hotplug selection and fan-out. */
  const WcmTypes: seq<TypeEntry> := [
    TypeEntry("stylus", BTN_TOOL_PEN),
    TypeEntry("eraser", BTN_TOOL_RUBBER),
    TypeEntry("cursor", BTN_TOOL_MOUSE),
    TypeEntry("touch", BTN_TOOL_DOUBLETAP),
    TypeEntry("pad", BTN_TOOL_FINGER)
  ]

  /** `typeName` is the name of a table entry whose tool bit is set in `keys`. */
  predicate SupportsType(typeName: string, keys: set<nat>) {
    exists j :: 0 <= j < |WcmTypes| && WcmTypes[j].name == typeName && WcmTypes[j].tool in keys
  }

  /** The names in the table are pairwise distinct. */
  lemma TableNamesDistinct()
    ensures forall i, j :: 0 <= i < j < |WcmTypes| ==> WcmTypes[i].name != WcmTypes[j].name
  {
  }

  /** SupportsType, entry by entry: only the five table names can be supported. */
  lemma SupportsTypeByName(typeName: string, keys: set<nat>)
    ensures SupportsType(typeName, keys) <==>
      (typeName == "stylus" && BTN_TOOL_PEN in keys) ||
      (typeName == "eraser" && BTN_TOOL_RUBBER in keys) ||
      (typeName == "cursor" && BTN_TOOL_MOUSE in keys) ||
      (typeName == "touch" && BTN_TOOL_DOUBLETAP in keys) ||
      (typeName == "pad" && BTN_TOOL_FINGER in keys)
  {
    if SupportsType(typeName, keys) {
      var j :| 0 <= j < |WcmTypes| && WcmTypes[j].name == typeName && WcmTypes[j].tool in keys;
      assert j == 0 || j == 1 || j == 2 || j == 3 || j == 4;
    }
    if typeName == "stylus" && BTN_TOOL_PEN in keys { assert WcmTypes[0].name == typeName; }
    if typeName == "eraser" && BTN_TOOL_RUBBER in keys { assert WcmTypes[1].name == typeName; }
    if typeName == "cursor" && BTN_TOOL_MOUSE in keys { assert WcmTypes[2].name == typeName; }
    if typeName == "touch" && BTN_TOOL_DOUBLETAP in keys { assert WcmTypes[3].name == typeName; }
    if typeName == "pad" && BTN_TOOL_FINGER in keys { assert WcmTypes[4].name == typeName; }
  }

  /** checkValidType: walks the whole table with an accumulator. */
  method CheckValidType(typeName: string, keys: set<nat>) returns (ret: bool)
    ensures ret == SupportsType(typeName, keys)
  {
    ret := false;
    for j := 0 to |WcmTypes|
      invariant ret <==> exists k :: 0 <= k < j && WcmTypes[k].name == typeName && WcmTypes[k].tool in keys
    {
      if WcmTypes[j].name == typeName {
        if WcmTypes[j].tool in keys {
          ret := true;
        }
      }
    }
  }

  /** The verdict wcmIsAValidType reaches for `node`: false when the node cannot
      be opened or the key query fails, otherwise checkValidType's. */
  predicate ValidFor(node: Node, typeName: string) {
    node.opens && node.keys.KeyBits? && SupportsType(typeName, node.keys.bits)
  }

  /** Whether a wcmIsAValidType call on `node` leaves its descriptor open: it
      returns on a failed key query without closing. */
  predicate LeaksDescriptor(node: Node) {
    node.opens && node.keys.QueryFails?
  }

  /** wcmIsAValidType: open the node, query its key bits, close, check. */
  method IsAValidType(files: FileTable, node: Node, typeName: string) returns (ok: bool)
    requires files.Valid()
    modifies files
    ensures files.Valid()
    ensures ok == ValidFor(node, typeName)
    ensures files.open == old(files.open) + (if LeaksDescriptor(node) then {old(files.next)} else {})
    ensures files.next == old(files.next) + (if node.opens then 1 else 0)
  {
    var fd := files.Open(node.opens);
    if fd < 0 {
      return false;
    }
    if node.keys.QueryFails? {
      return false;
    }
    files.Close(fd);
    ok := CheckValidType(typeName, node.keys.bits);
  }

  /** The names of the table's first `n` entries that are valid for `node`, in
      table order. */
  function ValidTypesUpTo(node: Node, n: nat): (r: seq<string>)
    requires n <= |WcmTypes|
    ensures |r| <= n
  {
    if n == 0 then []
    else ValidTypesUpTo(node, n - 1) + (if ValidFor(node, WcmTypes[n - 1].name) then [WcmTypes[n - 1].name] else [])
  }

  function ValidTypes(node: Node): seq<string> {
    ValidTypesUpTo(node, |WcmTypes|)
  }

  /** The type wcmNeedAutoHotplug picks: the first valid one, if any. */
  function FirstValid(node: Node): Option<string> {
    if ValidTypes(node) == [] then None else Some(ValidTypes(node)[0])
  }

  /** A list without its first element. */
  function AfterFirst(s: seq<string>): seq<string> {
    if s == [] then [] else s[1..]
  }

  /** The types wcmHotplugOthers requests: every valid one after the first. */
  function OtherValidTypes(node: Node): seq<string> {
    AfterFirst(ValidTypes(node))
  }

  /** The valid prefix lists exactly the valid names among the first n
      entries, none of them twice. */
  lemma {:induction false} ValidTypesUpToSpec(node: Node, n: nat)
    requires n <= |WcmTypes|
    ensures forall t :: t in ValidTypesUpTo(node, n) <==>
      exists i :: 0 <= i < n && WcmTypes[i].name == t && ValidFor(node, t)
    ensures forall a, b :: 0 <= a < b < |ValidTypesUpTo(node, n)| ==>
      ValidTypesUpTo(node, n)[a] != ValidTypesUpTo(node, n)[b]
  {
    if n > 0 {
      ValidTypesUpToSpec(node, n - 1);
      TableNamesDistinct();
      var p := ValidTypesUpTo(node, n - 1);
      var r := ValidTypesUpTo(node, n);
      assert WcmTypes[n - 1].name !in p;
      forall a, b | 0 <= a < b < |r| ensures r[a] != r[b] {
        if b >= |p| {
          assert r[a] == p[a] && r[a] in p;
        }
      }
    }
  }

  /** The prefix is empty exactly when none of its entries is valid. */
  lemma {:induction false} EmptyPrefix(node: Node, n: nat)
    requires n <= |WcmTypes|
    ensures ValidTypesUpTo(node, n) == [] <==> forall j :: 0 <= j < n ==> !ValidFor(node, WcmTypes[j].name)
  {
    if n > 0 {
      EmptyPrefix(node, n - 1);
    }
  }

  /** The prefix starts with entry i exactly when entry i is the first valid one. */
  lemma {:induction false} PrefixHead(node: Node, n: nat, i: nat)
    requires n <= |WcmTypes| && i < |WcmTypes|
    ensures (ValidTypesUpTo(node, n) != [] && ValidTypesUpTo(node, n)[0] == WcmTypes[i].name) <==>
      (i < n && ValidFor(node, WcmTypes[i].name) && forall j :: 0 <= j < i ==> !ValidFor(node, WcmTypes[j].name))
  {
    if n > 0 {
      PrefixHead(node, n - 1, i);
      EmptyPrefix(node, n - 1);
      TableNamesDistinct();
      var p := ValidTypesUpTo(node, n - 1);
      if p == [] && ValidFor(node, WcmTypes[n - 1].name) && WcmTypes[n - 1].name == WcmTypes[i].name {
        assert i == n - 1;
      }
    }
  }

  /** Every type that is valid for the node is listed, and nothing else. */
  lemma ValidTypesMembership(node: Node, t: string)
    ensures t in ValidTypes(node) <==> ValidFor(node, t)
  {
    ValidTypesUpToSpec(node, |WcmTypes|);
    if ValidFor(node, t) {
      var j :| 0 <= j < |WcmTypes| && WcmTypes[j].name == t && WcmTypes[j].tool in node.keys.bits;
    }
  }

  /** The list holds no name twice. */
  lemma ValidTypesDistinct(node: Node)
    ensures forall a, b :: 0 <= a < b < |ValidTypes(node)| ==> ValidTypes(node)[a] != ValidTypes(node)[b]
  {
    ValidTypesUpToSpec(node, |WcmTypes|);
  }

  /** FirstValid is the first table entry, in table order, that is valid. */
  lemma FirstValidIsFirst(node: Node, i: nat)
    requires i < |WcmTypes|
    ensures FirstValid(node) == Some(WcmTypes[i].name) <==>
      ValidFor(node, WcmTypes[i].name) && forall j :: 0 <= j < i ==> !ValidFor(node, WcmTypes[j].name)
  {
    PrefixHead(node, |WcmTypes|, i);
  }

  /** FirstValid is None exactly when no table entry is valid. */
  lemma NoValidType(node: Node)
    ensures FirstValid(node).None? <==> forall j :: 0 <= j < |WcmTypes| ==> !ValidFor(node, WcmTypes[j].name)
  {
    EmptyPrefix(node, |WcmTypes|);
  }

  /** The selected type followed by the fanned-out ones is every valid type,
      and the fan-out never repeats the selected one. */
  lemma SelectionAndFanOutPartition(node: Node)
    ensures FirstValid(node).None? ==> OtherValidTypes(node) == []
    ensures FirstValid(node).Some? ==> ValidTypes(node) == [FirstValid(node).value] + OtherValidTypes(node)
    ensures FirstValid(node).Some? ==> FirstValid(node).value !in OtherValidTypes(node)
  {
    ValidTypesDistinct(node);
    var vs := ValidTypes(node);
    if vs != [] {
      assert vs == [vs[0]] + vs[1..];
      forall a | 0 <= a < |vs[1..]| ensures vs[1..][a] != vs[0] {
        assert vs[1..][a] == vs[a + 1];
      }
    }
  }

  /** A tablet with stylus, eraser and pad keys: the stylus is selected, and
      the eraser and the pad are fanned out, in that order. */
  lemma StylusEraserPadExample(node: Node)
    requires node == Node(true, StatOk(1), KeyBits({BTN_TOOL_PEN, BTN_TOOL_RUBBER, BTN_TOOL_FINGER}))
    ensures FirstValid(node) == Some("stylus")
    ensures OtherValidTypes(node) == ["eraser", "pad"]
  {
    SupportsTypeByName("stylus", node.keys.bits);
    SupportsTypeByName("eraser", node.keys.bits);
    SupportsTypeByName("cursor", node.keys.bits);
    SupportsTypeByName("touch", node.keys.bits);
    SupportsTypeByName("pad", node.keys.bits);
    assert ValidTypesUpTo(node, 1) == ["stylus"];
    assert ValidTypesUpTo(node, 2) == ["stylus", "eraser"];
    assert ValidTypesUpTo(node, 4) == ["stylus", "eraser"];
    assert ValidTypes(node) == ["stylus", "eraser", "pad"];
  }
}
