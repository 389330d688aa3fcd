/**
 * YAML documents as the safe loader hands them to the audit script: nested
 * mappings, lists and scalars, together with the few Python operations the
 * audit applies to them (truth value, `dict.get`, `in`, iteration and
 * `str.strip`).
 */
module Yaml {

  /** A loaded YAML value. A mapping keeps its entries in insertion order,
      as a Python dict does; the loader never produces two entries with the
      same key. */
  datatype Value =
    | Null
    | Bool(b: bool)
    | Int(i: int)
    | Str(s: string)
    | List(items: seq<Value>)
    | Map(entries: seq<Entry>)

  datatype Entry = Entry(key: Value, val: Value)

  const EmptyMap: Value := Map([])
  const EmptyList: Value := List([])

  /** Python's truth value: None, False, 0 and empty strings, lists and dicts
      are false, everything else is true. */
  predicate Truthy(v: Value) {
    match v
    case Null => false
    case Bool(b) => b
    case Int(i) => i != 0
    case Str(s) => s != ""
    case List(items) => items != []
    case Map(entries) => entries != []
  }

  /** Python's `v or d`. */
  function Or(v: Value, d: Value): Value {
    if Truthy(v) then v else d
  }

  /** The keys of a mapping are pairwise distinct. */
  predicate DistinctKeys(es: seq<Entry>) {
    forall i, j | 0 <= i < j < |es| :: es[i].key != es[j].key
  }

  /** The value stored under the first entry with key `k`, or None. */
  function Lookup(es: seq<Entry>, k: Value): Value {
    if es == [] then Null
    else if es[0].key == k then es[0].val
    else Lookup(es[1..], k)
  }

  /** `Lookup` yields None for an absent key, and otherwise the value of the
      first entry carrying the key. */
  lemma {:induction false} LookupFirst(es: seq<Entry>, k: Value)
    ensures (forall i | 0 <= i < |es| :: es[i].key != k) ==> Lookup(es, k) == Null
    ensures (exists i | 0 <= i < |es| :: es[i].key == k) ==>
              exists i | 0 <= i < |es| :: es[i] == Entry(k, Lookup(es, k)) && forall j | 0 <= j < i :: es[j].key != k
  {
    if es != [] && es[0].key != k {
      LookupFirst(es[1..], k);
      assert forall i | 1 <= i < |es| :: es[i] == es[1..][i - 1];
      if exists i | 0 <= i < |es| :: es[i].key == k {
        var i :| 0 <= i < |es| && es[i].key == k;
        assert es[1..][i - 1].key == k;
        var i' :| 0 <= i' < |es| - 1 && es[1..][i'] == Entry(k, Lookup(es, k)) && forall j | 0 <= j < i' :: es[1..][j].key != k;
        assert es[i' + 1] == Entry(k, Lookup(es, k));
      }
    }
  }

  /** Some entry carries key `k`. */
  predicate KeyIn(es: seq<Entry>, k: Value) {
    es != [] && (es[0].key == k || KeyIn(es[1..], k))
  }

  lemma {:induction false} KeyInIff(es: seq<Entry>, k: Value)
    ensures KeyIn(es, k) <==> exists i | 0 <= i < |es| :: es[i].key == k
  {
    if es != [] {
      KeyInIff(es[1..], k);
      assert forall i | 1 <= i < |es| :: es[i] == es[1..][i - 1];
      if KeyIn(es[1..], k) {
        var i :| 0 <= i < |es| - 1 && es[1..][i].key == k;
        assert es[i + 1].key == k;
      }
    }
  }

  /** `k in v` for a mapping `v`. */
  predicate HasKey(v: Value, k: Value) {
    v.Map? && KeyIn(v.entries, k)
  }

  /** `v.get(k)`: the value under `k`, or None when `k` is absent. Only a
      mapping has a `get`; on anything else the script would raise, and the
      model answers None. */
  function Get(v: Value, k: Value): Value {
    if v.Map? then Lookup(v.entries, k) else Null
  }

  /** The entries `v.items()` visits; none for a non-mapping. */
  function Entries(v: Value): seq<Entry> {
    if v.Map? then v.entries else []
  }

  function KeysOf(es: seq<Entry>): seq<Value> {
    if es == [] then [] else [es[0].key] + KeysOf(es[1..])
  }

  /** `list(v.keys())` of a mapping. */
  function Keys(v: Value): seq<Value> {
    KeysOf(Entries(v))
  }

  /** The one-character strings of `s`, in order. */
  function Chars(s: string): seq<Value> {
    if s == "" then [] else [Str([s[0]])] + Chars(s[1..])
  }

  /** What a Python `for x in v` visits: the items of a list, the keys of a
      dict, the one-character strings of a string; a scalar is not iterable
      (the script would raise) and the model visits nothing. */
  function Iter(v: Value): seq<Value> {
    match v
    case List(items) => items
    case Map(es) => KeysOf(es)
    case Str(s) => Chars(s)
    case _ => []
  }

  /** The characters Python's `str.isspace` accepts, which `str.strip()`
      removes from both ends. */
  predicate IsSpace(c: char) {
    var n := c as int;
    || 9 <= n <= 13 || 28 <= n <= 32 || n == 0x85 || n == 0xA0 || n == 0x1680
    || 0x2000 <= n <= 0x200A || n == 0x2028 || n == 0x2029 || n == 0x202F
    || n == 0x205F || n == 0x3000
  }

  /** Every character of `s` is white space (vacuously so for ""). */
  predicate Blank(s: string) {
    forall i | 0 <= i < |s| :: IsSpace(s[i])
  }

  function TrimStart(s: string): string {
    if s != [] && IsSpace(s[0]) then TrimStart(s[1..]) else s
  }

  function TrimEnd(s: string): string {
    if s != [] && IsSpace(s[|s| - 1]) then TrimEnd(s[..|s| - 1]) else s
  }

  /** Python's `s.strip()`. */
  function Strip(s: string): string {
    TrimEnd(TrimStart(s))
  }

  lemma {:induction false} TrimStartEmptyIffBlank(s: string)
    ensures TrimStart(s) == [] <==> Blank(s)
    ensures TrimStart(s) != [] ==> !IsSpace(TrimStart(s)[0])
  {
    if s != [] && IsSpace(s[0]) {
      TrimStartEmptyIffBlank(s[1..]);
      assert Blank(s) <==> Blank(s[1..]) by {
        assert forall i | 1 <= i < |s| :: s[i] == s[1..][i - 1];
      }
    }
  }

  lemma {:induction false} TrimEndKeepsFirst(s: string)
    requires s != [] && !IsSpace(s[0])
    ensures TrimEnd(s) != [] && TrimEnd(s)[0] == s[0]
  {
    if IsSpace(s[|s| - 1]) {
      TrimEndKeepsFirst(s[..|s| - 1]);
    }
  }

  /** `s.strip() == ""` holds exactly when `s` consists of white space. */
  lemma StripEmptyIffBlank(s: string)
    ensures Strip(s) == "" <==> Blank(s)
  {
    TrimStartEmptyIffBlank(s);
    if TrimStart(s) != [] {
      TrimEndKeepsFirst(TrimStart(s));
    }
  }
}
