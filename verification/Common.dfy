/** Small vocabulary shared by the models of the exporter's packages. */
module Common {

  datatype Option<+T> = None | Some(value: T) {
    predicate IsFailure() { None? }

    function PropagateFailure<U>(): Option<U>
      requires None?
    {
      None
    }

    function Extract(): T
      requires Some?
    {
      value
    }
  }

  datatype Result<+T, +E> = Ok(value: T) | Err(error: E)

  /** An error value; only its message is kept. */
  type Failure = string

  const TWO64: int := 0x1_0000_0000_0000_0000

  predicate NoDup<T(==)>(s: seq<T>) {
    forall i, j :: 0 <= i < j < |s| ==> s[i] != s[j]
  }

  /** One possible iteration order of a Go map with the given keys. */
  predicate IsOrder<T(==)>(order: seq<T>, keys: set<T>) {
    && NoDup(order)
    && (forall k :: k in keys ==> k in order)
    && (forall k :: k in order ==> k in keys)
  }

  const ID_LIMIT := 12

  /** getID: an identifier is cut to its first twelve characters (pdcs/utils.go). */
  function GetID(id: string): (r: string)
    ensures |id| >= 12 ==> |r| == 12 && r == id[..12]
    ensures |id| < 12 ==> r == id
  {
    if |id| > 0 then
      if |id| >= ID_LIMIT then id[..ID_LIMIT] else id
    else id
  }

  /** Two identifiers are confused exactly when they are equal, or long enough and alike in their first twelve characters. */
  lemma SameIDIff(a: string, b: string)
    ensures GetID(a) == GetID(b) <==> a == b || (|a| >= 12 && |b| >= 12 && a[..12] == b[..12])
  {
    if GetID(a) == GetID(b) {
      assert |a| < 12 <==> |GetID(a)| < 12;
      assert |b| < 12 <==> |GetID(b)| < 12;
    }
  }

  /** strings.Cut on a one-character separator: the text around its first occurrence. */
  function Cut(s: string, c: char): (r: Option<(string, string)>)
    ensures r.Some? ==> c !in r.value.0 && s == r.value.0 + [c] + r.value.1
    ensures r.None? <==> c !in s
  {
    if s == "" then None
    else if s[0] == c then
      assert s == [] + [c] + s[1..];
      Some(("", s[1..]))
    else
      match Cut(s[1..], c)
      case None => None
      case Some((before, after)) =>
        assert s == [s[0]] + s[1..];
        Some(([s[0]] + before, after))
  }

  lemma {:induction false} CutAt(a: string, c: char, b: string)
    requires c !in a
    ensures Cut(a + [c] + b, c) == Some((a, b))
  {
    var s := a + [c] + b;
    if a == "" {
      assert s[1..] == b;
    } else {
      assert s[1..] == a[1..] + [c] + b;
      assert c !in a[1..];
      CutAt(a[1..], c, b);
      assert a == [a[0]] + a[1..];
    }
  }

  /** The text around the last occurrence of `c`. */
  function CutLast(s: string, c: char): (r: Option<(string, string)>)
    ensures r.Some? ==> c !in r.value.1 && s == r.value.0 + [c] + r.value.1
    ensures r.None? <==> c !in s
  {
    if s == "" then None
    else
      var n := |s| - 1;
      assert s == s[..n] + [s[n]];
      if s[n] == c then
        Some((s[..n], ""))
      else
        match CutLast(s[..n], c)
        case None => None
        case Some((before, after)) => Some((before, after + [s[n]]))
  }

  lemma {:induction false} CutLastAt(a: string, c: char, b: string)
    requires c !in b
    ensures CutLast(a + [c] + b, c) == Some((a, b))
  {
    var s := a + [c] + b;
    var n := |s| - 1;
    if b == "" {
      assert s[..n] == a;
    } else {
      var m := |b| - 1;
      assert b == b[..m] + [b[m]];
      assert s[..n] == a + [c] + b[..m];
      CutLastAt(a, c, b[..m]);
    }
  }

  /** strings.Split on a one-character separator: never empty, `Split("")` is `[""]`. */
  function Split(s: string, c: char): (r: seq<string>)
    ensures r != [] && forall p :: p in r ==> c !in p
    decreases |s|
  {
    match Cut(s, c)
    case None => [s]
    case Some((before, after)) => [before] + Split(after, c)
  }

  // ---------------------------------------------------------------- sums over finite sets

  /** The sum of `f` over a set of identifiers. */
  ghost function SumOver(ids: set<string>, f: map<string, int>): int
    requires ids <= f.Keys
    decreases |ids|
  {
    if ids == {} then 0
    else
      var id :| id in ids;
      f[id] + SumOver(ids - {id}, f)
  }

  /** The sum does not depend on the order in which the set is taken apart. */
  lemma {:induction false} SumOverRemove(ids: set<string>, f: map<string, int>, id: string)
    requires ids <= f.Keys && id in ids
    ensures SumOver(ids, f) == f[id] + SumOver(ids - {id}, f)
    decreases |ids|
  {
    var first :| first in ids && SumOver(ids, f) == f[first] + SumOver(ids - {first}, f);
    if first != id {
      SumOverRemove(ids - {first}, f, id);
      SumOverRemove(ids - {id}, f, first);
      assert ids - {first} - {id} == ids - {id} - {first};
    }
  }

  lemma {:induction false} SumOverSame(ids: set<string>, f: map<string, int>, g: map<string, int>)
    requires ids <= f.Keys && ids <= g.Keys && forall id :: id in ids ==> f[id] == g[id]
    ensures SumOver(ids, f) == SumOver(ids, g)
    decreases |ids|
  {
    if ids != {} {
      var id :| id in ids;
      SumOverRemove(ids, f, id);
      SumOverRemove(ids, g, id);
      SumOverSame(ids - {id}, f, g);
    }
  }
}
