/** The X server's option list as the driver sees it: an ordered list of
    key/value entries in which no two keys name the same option.  Option names
    (and the keywords the driver compares option values with) are compared the
    way xf86NameCmp compares them: ASCII case is ignored, and so are the
    characters '_', space and tab. */
module OptionStore {
  import opened Wrappers

  /** The value of an option; `NoValue` is an entry whose value pointer is NULL. */
  datatype Value = Str(s: string) | NoValue

  datatype Entry = Entry(key: string, value: Value)

  type Options = seq<Entry>

  predicate IsSeparator(c: char) {
    c == '_' || c == ' ' || c == '\t'
  }

  function LowerAscii(c: char): (r: char)
    ensures 'A' <= c <= 'Z' ==> 'a' <= r <= 'z' && r as int == c as int + 32
    ensures !('A' <= c <= 'Z') ==> r == c
  {
    if 'A' <= c <= 'Z' then (c as int + 32) as char else c
  }

  /** The spelling of a name that the comparison looks at. */
  function Fold(s: string): (r: string)
    ensures |r| <= |s|
  {
    if s == [] then []
    else (if IsSeparator(s[0]) then [] else [LowerAscii(s[0])]) + Fold(s[1..])
  }

  /** xf86NameCmp(a, b) == 0: both names are walked together, separators on
      either side are skipped, and the remaining characters must agree up to
      ASCII case until both names end together. */
  predicate SameName(a: string, b: string)
    decreases |a| + |b|
  {
    if a != [] && IsSeparator(a[0]) then SameName(a[1..], b)
    else if b != [] && IsSeparator(b[0]) then SameName(a, b[1..])
    else if a == [] || b == [] then a == [] && b == []
    else LowerAscii(a[0]) == LowerAscii(b[0]) && SameName(a[1..], b[1..])
  }

  /** One step of Fold: a separator is dropped, any other character lowered. */
  lemma FoldCons(s: string)
    requires |s| > 0
    ensures IsSeparator(s[0]) ==> Fold(s) == Fold(s[1..])
    ensures !IsSeparator(s[0]) ==> Fold(s) == [LowerAscii(s[0])] + Fold(s[1..])
  {
  }

  /** The walk compares exactly the folded spellings of the two names. */
  lemma {:induction false} SameNameFold(a: string, b: string)
    ensures SameName(a, b) <==> Fold(a) == Fold(b)
    decreases |a| + |b|
  {
    if a != [] && IsSeparator(a[0]) {
      FoldCons(a);
      SameNameFold(a[1..], b);
    } else if b != [] && IsSeparator(b[0]) {
      FoldCons(b);
      SameNameFold(a, b[1..]);
    } else if a == [] || b == [] {
      if a != [] { FoldCons(a); }
      if b != [] { FoldCons(b); }
    } else {
      FoldCons(a);
      FoldCons(b);
      SameNameFold(a[1..], b[1..]);
      var fa, fb := Fold(a), Fold(b);
      if fa == fb {
        assert fa[0] == fb[0] && fa[1..] == fb[1..];
      }
    }
  }

  /** Naming the same option is an equivalence. */
  lemma SameNameEquiv(a: string, b: string, c: string)
    ensures SameName(a, a)
    ensures SameName(a, b) ==> SameName(b, a)
    ensures SameName(a, b) && SameName(b, c) ==> SameName(a, c)
  {
    SameNameFold(a, a);
    SameNameFold(a, b);
    SameNameFold(b, a);
    SameNameFold(b, c);
    SameNameFold(a, c);
  }

  /** The comparison does not depend on the order of its arguments. */
  lemma SameNameSym(a: string, b: string)
    ensures SameName(a, b) == SameName(b, a)
  {
    SameNameFold(a, b);
    SameNameFold(b, a);
  }

  /** Two names whose folded spellings begin differently are different names. */
  lemma HeadsDiffer(a: string, b: string)
    requires |Fold(a)| > 0 && |Fold(b)| > 0 && Fold(a)[0] != Fold(b)[0]
    ensures !SameName(a, b) && !SameName(b, a)
  {
    SameNameFold(a, b);
    SameNameFold(b, a);
  }

  /** The first character the comparison looks at, lowered; None for a name
      made only of separators. */
  function Head(s: string): Option<char>
    decreases |s|
  {
    if s == [] then None
    else if IsSeparator(s[0]) then Head(s[1..])
    else Some(LowerAscii(s[0]))
  }

  /** Two names that compare equal begin with the same character. */
  lemma {:induction false} SameNameHead(a: string, b: string)
    ensures SameName(a, b) ==> Head(a) == Head(b)
    decreases |a| + |b|
  {
    if a != [] && IsSeparator(a[0]) {
      SameNameHead(a[1..], b);
    } else if b != [] && IsSeparator(b[0]) {
      SameNameHead(a, b[1..]);
    }
  }

  /** Two names that compare equal to each other compare equal to the same names. */
  lemma SameNameSwap(s: string, t: string, k: string)
    requires SameName(s, t)
    ensures SameName(s, k) == SameName(t, k)
  {
    SameNameEquiv(s, t, k);
    SameNameEquiv(t, s, k);
  }

  /** A name cannot equal two names that differ from each other. */
  lemma NotBoth(s: string, k1: string, k2: string)
    requires !SameName(k1, k2)
    ensures !(SameName(s, k1) && SameName(s, k2))
  {
    SameNameEquiv(s, k1, k2);
    SameNameEquiv(k1, s, k2);
  }

  /** Position of the first entry whose key names `key` (xf86findOption). */
  function Find(opts: Options, key: string): (r: Option<nat>)
    ensures r.Some? ==> r.value < |opts|
  {
    if opts == [] then None
    else if SameName(opts[0].key, key) then Some(0)
    else match Find(opts[1..], key)
      case None => None
      case Some(i) => Some(i + 1)
  }

  /** Find stops at the first entry that names `key`, and finds nothing
      exactly when no entry names it. */
  lemma {:induction false} FindSpec(opts: Options, key: string)
    ensures Find(opts, key).Some? ==>
      && SameName(opts[Find(opts, key).value].key, key)
      && forall j :: 0 <= j < Find(opts, key).value ==> !SameName(opts[j].key, key)
    ensures Find(opts, key).None? ==> forall j :: 0 <= j < |opts| ==> !SameName(opts[j].key, key)
  {
    if opts != [] && !SameName(opts[0].key, key) {
      FindSpec(opts[1..], key);
      assert forall j :: 0 < j < |opts| ==> opts[j] == opts[1..][j - 1];
    }
  }

  /** The value of the first entry that names `key`. */
  function Lookup(opts: Options, key: string): Option<Value> {
    match Find(opts, key)
    case None => None
    case Some(i) => Some(opts[i].value)
  }

  /** Lookup finds a value exactly when some entry names `key`. */
  lemma LookupSpec(opts: Options, key: string)
    ensures Lookup(opts, key).Some? <==> exists j :: 0 <= j < |opts| && SameName(opts[j].key, key)
  {
    FindSpec(opts, key);
  }

  /** The string value of an option, or None when the option is absent or
      has no value (xf86CheckStrOption with a NULL default). */
  function StrOption(opts: Options, key: string): (r: Option<string>)
    ensures r.Some? ==> Lookup(opts, key) == Some(Str(r.value))
    ensures r.None? <==> Lookup(opts, key).None? || Lookup(opts, key) == Some(NoValue)
  {
    match Lookup(opts, key)
    case Some(Str(s)) => Some(s)
    case _ => None
  }

  /** xf86CheckStrOption(opts, key, default) */
  function CheckStr(opts: Options, key: string, default: string): (r: string)
    ensures Lookup(opts, key) == Some(Str(r)) || (StrOption(opts, key) == None && r == default)
  {
    StrOption(opts, key).GetOr(default)
  }

  /** The string an option holds is what xf86CheckStrOption returns. */
  lemma CheckStrFound(opts: Options, key: string, v: string, default: string)
    requires Lookup(opts, key) == Some(Str(v))
    ensures CheckStr(opts, key, default) == v
  {
  }

  /** No two entries name the same option. */
  predicate UniqueKeys(opts: Options) {
    forall i, j :: 0 <= i < j < |opts| ==> !SameName(opts[i].key, opts[j].key)
  }

  /** Replace the value of `key` where it is, or append it at the tail when it is
      absent (xf86ReplaceStrOption and xf86AddNewOption, both of which end in the
      parser's duplicate-free insertion). */
  function Replace(opts: Options, key: string, v: Value): (r: Options)
    ensures Lookup(opts, key).Some? ==> |r| == |opts|
    ensures Lookup(opts, key).None? ==> |r| == |opts| + 1 && r[..|opts|] == opts
  {
    match Find(opts, key)
    case Some(i) => opts[i := Entry(key, v)]
    case None => opts + [Entry(key, v)]
  }

  /** Find returns the first position that names `key`. */
  lemma FindIs(opts: Options, key: string, i: nat)
    requires i < |opts| && SameName(opts[i].key, key)
    requires forall j :: 0 <= j < i ==> !SameName(opts[j].key, key)
    ensures Find(opts, key) == Some(i)
  {
    FindSpec(opts, key);
  }

  /** Find returns nothing when no entry names `key`. */
  lemma FindNone(opts: Options, key: string)
    requires forall j :: 0 <= j < |opts| ==> !SameName(opts[j].key, key)
    ensures Find(opts, key) == None
  {
    FindSpec(opts, key);
  }

  /** In a list with unique keys, an entry that names `key` is what Lookup finds. */
  lemma LookupAt(opts: Options, i: nat, key: string)
    requires UniqueKeys(opts)
    requires i < |opts| && SameName(opts[i].key, key)
    ensures Lookup(opts, key) == Some(opts[i].value)
  {
    forall j | 0 <= j < i ensures !SameName(opts[j].key, key) {
      SameNameEquiv(opts[i].key, key, key);
      SameNameEquiv(opts[j].key, key, opts[i].key);
    }
    FindIs(opts, key, i);
  }

  /** After a replace the option has the new value. */
  lemma ReplaceSame(opts: Options, key: string, v: Value)
    ensures Lookup(Replace(opts, key, v), key) == Some(v)
  {
    var r := Replace(opts, key, v);
    FindSpec(opts, key);
    SameNameEquiv(key, key, key);
    match Find(opts, key)
    case Some(i) =>
      FindIs(r, key, i);
    case None =>
      FindIs(r, key, |opts|);
  }

  /** A replace leaves every option with another name as it was. */
  lemma ReplaceOther(opts: Options, key: string, v: Value, other: string)
    requires !SameName(key, other)
    ensures Lookup(Replace(opts, key, v), other) == Lookup(opts, other)
  {
    var r := Replace(opts, key, v);
    FindSpec(opts, key);
    FindSpec(opts, other);
    match Find(opts, key)
    case Some(i) =>
      SameNameEquiv(opts[i].key, key, key);
      SameNameEquiv(key, opts[i].key, other);
      assert !SameName(r[i].key, other) && !SameName(opts[i].key, other);
      if Find(opts, other).Some? {
        FindIs(r, other, Find(opts, other).value);
      } else {
        FindNone(r, other);
      }
    case None =>
      assert !SameName(r[|opts|].key, other);
      if Find(opts, other).Some? {
        FindIs(r, other, Find(opts, other).value);
      } else {
        FindNone(r, other);
      }
  }

  /** A replace keeps the keys unique. */
  lemma ReplaceUnique(opts: Options, key: string, v: Value)
    requires UniqueKeys(opts)
    ensures UniqueKeys(Replace(opts, key, v))
  {
    var r := Replace(opts, key, v);
    FindSpec(opts, key);
    match Find(opts, key)
    case Some(i) =>
      forall a, b | 0 <= a < b < |r| ensures !SameName(r[a].key, r[b].key) {
        if a == i {
          SameNameEquiv(opts[i].key, key, opts[b].key);
        } else if b == i {
          SameNameEquiv(opts[i].key, key, key);
          SameNameEquiv(opts[a].key, key, opts[i].key);
        }
      }
    case None =>
      forall a, b | 0 <= a < b < |r| ensures !SameName(r[a].key, r[b].key) {
        if b == |opts| {
          assert r[b].key == key && r[a] == opts[a];
        }
      }
  }

  /** The list walked from its tail to its head. */
  function Reversed(s: Options): (r: Options)
    ensures |r| == |s|
  {
    if s == [] then [] else [s[|s| - 1]] + Reversed(s[..|s| - 1])
  }

  lemma {:induction false} ReversedAt(s: Options, k: nat)
    requires k < |s|
    ensures Reversed(s)[k] == s[|s| - 1 - k]
  {
    if k > 0 {
      ReversedAt(s[..|s| - 1], k - 1);
    }
  }

  /** Walking a duplicate-free list backwards finds every option's value unchanged. */
  lemma LookupReversed(opts: Options, key: string)
    requires UniqueKeys(opts)
    ensures UniqueKeys(Reversed(opts))
    ensures Lookup(Reversed(opts), key) == Lookup(opts, key)
  {
    var r := Reversed(opts);
    var n := |opts|;
    forall k | 0 <= k < n ensures r[k] == opts[n - 1 - k] {
      ReversedAt(opts, k);
    }
    forall a, b | 0 <= a < b < n ensures !SameName(r[a].key, r[b].key) {
      assert r[a] == opts[n - 1 - a] && r[b] == opts[n - 1 - b];
      SameNameEquiv(r[a].key, r[b].key, r[b].key);
    }
    if i :| 0 <= i < n && SameName(opts[i].key, key) {
      LookupAt(opts, i, key);
      LookupAt(r, n - 1 - i, key);
    } else {
      forall j | 0 <= j < n ensures !SameName(r[j].key, key) {
        assert r[j] == opts[n - 1 - j];
      }
      FindNone(opts, key);
      FindNone(r, key);
    }
  }
}
