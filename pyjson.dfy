/** A parsed Swagger document as the directives handle it: the values
    `json.loads` produces, and the few Python operations the directives
    apply to them, each with the cases in which Python raises.

    A Python dict keeps insertion order, so an object is an ordered list of
    key/value pairs. Python's `None` is `Null`: `d.get(k)` gives `Null`
    both for a missing key and for a key bound to `null`, and every
    `is not None` test in the directives reads as `!= Null`. */
module PyJson {
  import opened Outcomes

  /** One key/value pair of a dict. */
  datatype Member = Member(key: string, val: Json)

  datatype Json =
    | Null
    | Bool(b: bool)
    | Num(n: int)
    | Str(s: string)
    | Arr(items: seq<Json>)
    | Obj(fields: seq<Member>)

  /** A measure under which every value stored in an array or object is
      smaller than the array or object; the schema walker recurses on it. */
  function Size(j: Json): (n: nat)
    ensures n >= 1
    decreases j, 1
  {
    match j
    case Arr(items) => 1 + SizeItems(items)
    case Obj(fields) => 1 + SizeFields(fields)
    case _ => 1
  }

  function SizeItems(items: seq<Json>): nat
    decreases items, 0
  {
    if items == [] then 0 else SizeItems(items[..|items| - 1]) + Size(items[|items| - 1])
  }

  function SizeFields(fields: seq<Member>): nat
    decreases fields, 0
  {
    if fields == [] then 0
    else
      var last := fields[|fields| - 1];
      assert last in fields;
      SizeFields(fields[..|fields| - 1]) + Size(last.val)
  }

  predicate HasKey(fields: seq<Member>, key: string)
  {
    exists i :: 0 <= i < |fields| && fields[i].key == key
  }

  /** The value bound to `key`. A dict built by `json.loads` keeps the
      last of repeated keys, so the search runs from the back. */
  function Lookup(fields: seq<Member>, key: string): (r: Option<Json>)
    ensures r.Some? <==> HasKey(fields, key)
    ensures r.Some? ==> Size(r.value) <= SizeFields(fields)
    ensures r.Some? ==> exists i :: 0 <= i < |fields| && fields[i] == Member(key, r.value)
  {
    if fields == [] then None
    else if fields[|fields| - 1].key == key then Some(fields[|fields| - 1].val)
    else
      var r := Lookup(fields[..|fields| - 1], key);
      assert forall i :: 0 <= i < |fields| - 1 ==> fields[..|fields| - 1][i] == fields[i];
      r
  }

  /** The members of a dict `json.loads` builds: no key twice. The model's
      member lists may repeat a key; the directives' loops then visit it
      once per occurrence, where Python would visit it once. */
  predicate DistinctKeys(fields: seq<Member>)
  {
    forall i, j :: 0 <= i < j < |fields| ==> fields[i].key != fields[j].key
  }

  /** In a dict without repeated keys, iterating the members and looking
      each key up agree: every member's key is bound to that member's
      value. */
  lemma {:induction false} DistinctKeysLookup(fields: seq<Member>, i: nat)
    requires DistinctKeys(fields) && i < |fields|
    ensures Lookup(fields, fields[i].key) == Some(fields[i].val)
  {
    if i < |fields| - 1 {
      var init := fields[..|fields| - 1];
      assert init[i] == fields[i];
      DistinctKeysLookup(init, i);
    }
  }

  /** `d.get(key)` on a dict `d`: the bound value, `Null` when absent. */
  function Field(j: Json, key: string): (v: Json)
    ensures v != Null ==> Size(v) < Size(j)
  {
    match j
    case Obj(fields) => (match Lookup(fields, key) case Some(v) => v case None => Null)
    case _ => Null
  }

  /** `Field` on dict literals of one, two and three entries. */
  lemma FieldOfOne(a: Member, key: string)
    ensures Field(Obj([a]), key) == if a.key == key then a.val else Null
    ensures HasKey([a], key) <==> a.key == key
  {
    assert [a][..0] == [];
  }

  lemma FieldOfTwo(a: Member, b: Member, key: string)
    ensures Field(Obj([a, b]), key) == if b.key == key then b.val else if a.key == key then a.val else Null
    ensures HasKey([a, b], key) <==> a.key == key || b.key == key
  {
    assert [a, b][..1] == [a];
    FieldOfOne(a, key);
  }

  lemma FieldOfThree(a: Member, b: Member, c: Member, key: string)
    ensures Field(Obj([a, b, c]), key) ==
              if c.key == key then c.val else if b.key == key then b.val else if a.key == key then a.val else Null
    ensures HasKey([a, b, c], key) <==> a.key == key || b.key == key || c.key == key
  {
    assert [a, b, c][..2] == [a, b];
    FieldOfTwo(a, b, key);
  }

  /** `j.get(key)`: only a dict has `get`; anything else raises
      AttributeError. */
  function Get(j: Json, key: string): (r: Outcome<Json>)
    ensures r.Ok? <==> j.Obj?
    ensures r.Ok? ==> r.value == Field(j, key)
  {
    if j.Obj? then Ok(Field(j, key)) else Raised
  }

  /** `j.get(key, default)`: the default only for a missing key, not for
      one bound to `null`. */
  function GetOr(j: Json, key: string, default: Json): (r: Outcome<Json>)
    ensures r.Ok? <==> j.Obj?
    ensures r.Ok? && HasKey(j.fields, key) ==> r.value == Field(j, key)
    ensures r.Ok? && !HasKey(j.fields, key) ==> r.value == default
  {
    if !j.Obj? then Raised
    else match Lookup(j.fields, key) case Some(v) => Ok(v) case None => Ok(default)
  }

  /** `d.get(key, default)` on a value already known to be a dict. */
  function Default(d: Json, key: string, default: Json): (v: Json)
    requires d.Obj?
    ensures HasKey(d.fields, key) ==> v == Field(d, key)
    ensures !HasKey(d.fields, key) ==> v == default
  {
    GetOr(d, key, default).value
  }

  /** `j[key]` with a string key: KeyError for a missing key, TypeError
      when `j` is not a dict. */
  function Index(j: Json, key: string): (r: Outcome<Json>)
    ensures r.Ok? <==> j.Obj? && HasKey(j.fields, key)
    ensures r.Ok? ==> r.value == Field(j, key)
  {
    if !j.Obj? then Raised
    else match Lookup(j.fields, key) case Some(v) => Ok(v) case None => Raised
  }

  /** Python truthiness: `if j:`. */
  predicate Truthy(j: Json)
  {
    match j
    case Null => false
    case Bool(b) => b
    case Num(n) => n != 0
    case Str(s) => s != ""
    case Arr(items) => items != []
    case Obj(fields) => fields != []
  }

  /** Only the scalar values can be dict keys; a list or dict raises
      TypeError (unhashable). */
  predicate Hashable(j: Json)
  {
    !j.Arr? && !j.Obj?
  }

  function Keys(fields: seq<Member>): (ks: seq<Json>)
    ensures |ks| == |fields|
    ensures forall i :: 0 <= i < |fields| ==> ks[i] == Str(fields[i].key)
  {
    seq(|fields|, i requires 0 <= i < |fields| => Str(fields[i].key))
  }

  /** What `for x in j:` visits: the items of a list, the keys of a dict,
      the one-character strings of a string; other values raise TypeError. */
  function Elements(j: Json): (r: Outcome<seq<Json>>)
    ensures r.Ok? <==> j.Arr? || j.Obj? || j.Str?
    ensures j.Arr? ==> r == Ok(j.items)
  {
    match j
    case Arr(items) => Ok(items)
    case Obj(fields) => Ok(Keys(fields))
    case Str(s) => Ok(seq(|s|, i requires 0 <= i < |s| => Str([s[i]])))
    case _ => Raised
  }

  predicate OccursAt(p: string, s: string, i: int)
  {
    0 <= i && i + |p| <= |s| && s[i..i + |p|] == p
  }

  predicate IsSubstring(p: string, s: string)
  {
    exists i :: 0 <= i <= |s| && OccursAt(p, s, i)
  }

  /** `name in container`: membership in a list, a key of a dict, a
      substring of a string; other containers raise TypeError. */
  function Contains(container: Json, name: string): (r: Outcome<bool>)
    ensures r.Ok? <==> container.Arr? || container.Obj? || container.Str?
    ensures container.Arr? ==> r == Ok(Str(name) in container.items)
  {
    match container
    case Arr(items) => Ok(Str(name) in items)
    case Obj(fields) => Ok(HasKey(fields, name))
    case Str(s) => Ok(IsSubstring(name, s))
    case _ => Raised
  }

  function DigitChar(d: nat): char
    requires d < 10
  {
    "0123456789"[d]
  }

  function NatToString(n: nat): (s: string)
    ensures |s| >= 1
  {
    if n < 10 then [DigitChar(n)] else NatToString(n / 10) + [DigitChar(n % 10)]
  }

  function IntToString(n: int): string
  {
    if n < 0 then "-" + NatToString(-n) else NatToString(n)
  }

  /** `repr(j)`, the text `str()` gives a list or dict. */
  function Repr(j: Json): string
    decreases j, 1
  {
    match j
    case Null => "None"
    case Bool(b) => if b then "True" else "False"
    case Num(n) => IntToString(n)
    case Str(s) => "'" + s + "'"
    case Arr(items) => "[" + ReprItems(items) + "]"
    case Obj(fields) => "{" + ReprFields(fields) + "}"
  }

  function ReprItems(items: seq<Json>): string
    decreases items, 0
  {
    if items == [] then ""
    else if |items| == 1 then Repr(items[0])
    else ReprItems(items[..|items| - 1]) + ", " + Repr(items[|items| - 1])
  }

  function ReprFields(fields: seq<Member>): string
    decreases fields, 0
  {
    if fields == [] then ""
    else
      var kv := fields[|fields| - 1];
      assert kv in fields;
      var last := "'" + kv.key + "': " + Repr(kv.val);
      if |fields| == 1 then last else ReprFields(fields[..|fields| - 1]) + ", " + last
  }

  /** `str(j)`, which is also what `nodes.Text(j)` displays: a string as
      it is, anything else as its repr. */
  function PyStr(j: Json): (s: string)
    ensures j.Str? ==> s == j.s
  {
    if j.Str? then j.s else Repr(j)
  }

  function UpperChar(c: char): (u: char)
  {
    if 'a' <= c <= 'z' then (c as int - 'a' as int + 'A' as int) as char else c
  }

  /** `s.upper()` on ASCII letters. */
  function Upper(s: string): (u: string)
    ensures |u| == |s|
    ensures forall i :: 0 <= i < |s| ==> u[i] == UpperChar(s[i])
  {
    seq(|s|, i requires 0 <= i < |s| => UpperChar(s[i]))
  }

  predicate StartsWith(s: string, prefix: string)
  {
    |prefix| <= |s| && s[..|prefix|] == prefix
  }

  /** `s.replace(p, '')` for a non-empty `p`: every non-overlapping
      occurrence, scanning left to right, is removed. */
  function RemoveAll(s: string, p: string): string
    requires p != ""
    decreases |s|
  {
    if |s| < |p| then s
    else if s[..|p|] == p then RemoveAll(s[|p|..], p)
    else [s[0]] + RemoveAll(s[1..], p)
  }

  /** Where the pattern does not occur, nothing is removed. */
  lemma {:induction false} RemoveAllAbsent(s: string, p: string)
    requires p != ""
    requires !IsSubstring(p, s)
    ensures RemoveAll(s, p) == s
    decreases |s|
  {
    if |s| >= |p| {
      assert !OccursAt(p, s, 0);
      assert s[0..0 + |p|] == s[..|p|];
      assert !IsSubstring(p, s[1..]) by {
        forall i | OccursAt(p, s[1..], i) ensures false {
          assert s[1..][i..i + |p|] == s[i + 1..i + 1 + |p|];
          assert OccursAt(p, s, i + 1);
        }
      }
      RemoveAllAbsent(s[1..], p);
    }
  }

  /** A string that starts with the pattern loses that occurrence and all
      later ones: `'#/definitions/' + name` becomes `name` when the prefix
      does not occur again inside `name`. */
  lemma RemoveAllPrefix(p: string, rest: string)
    requires p != ""
    requires !IsSubstring(p, rest)
    ensures RemoveAll(p + rest, p) == rest
  {
    var s := p + rest;
    assert s[..|p|] == p;
    assert s[|p|..] == rest;
    RemoveAllAbsent(rest, p);
  }

  /** A text none of whose characters can start the pattern passes through
      unchanged, and removal goes on after it. */
  lemma {:induction false} RemoveAllSkip(a: string, rest: string, p: string)
    requires p != ""
    requires forall i :: 0 <= i < |a| ==> a[i] != p[0]
    ensures RemoveAll(a + rest, p) == a + RemoveAll(rest, p)
    decreases |a|
  {
    var s := a + rest;
    if a == [] {
      assert s == rest;
    } else {
      assert s[1..] == a[1..] + rest;
      RemoveAllSkip(a[1..], rest, p);
      if |s| >= |p| {
        assert s[..|p|] != p by { assert s[..|p|][0] == a[0]; }
        assert RemoveAll(s, p) == [a[0]] + RemoveAll(s[1..], p);
      } else {
        assert RemoveAll(rest, p) == rest;
      }
      assert a == [a[0]] + a[1..];
    }
  }

  /** A pattern cannot occur in a text lacking its first character. */
  lemma LeadAbsent(p: string, s: string)
    requires p != ""
    requires forall i :: 0 <= i < |s| ==> s[i] != p[0]
    ensures !IsSubstring(p, s)
  {
    forall i | 0 <= i <= |s| ensures !OccursAt(p, s, i) {
      if i + |p| <= |s| {
        assert s[i..i + |p|][0] == s[i];
      }
    }
  }
}
