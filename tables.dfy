/** Operations on a table of records keyed by a string id, shared by the
    mock backend and the client cache: `findIndex(r => r.id === id)`,
    `filter(r => r.id !== id)` and `map(r => r.id === id ? f(r) : r)`. */
module Tables {
  import opened Wrappers
  import opened Seqs

  /** Every record of `s` has a different id. */
  ghost predicate UniqueIds<T>(s: seq<T>, idOf: T -> string)
  {
    forall i, j :: 0 <= i < j < |s| ==> idOf(s[i]) != idOf(s[j])
  }

  /** `findIndex(r => r.id === id)`: the first position holding `id`. */
  function IndexOfId<T>(s: seq<T>, idOf: T -> string, id: string): (r: Option<nat>)
    ensures r.Some? ==> r.value < |s| && idOf(s[r.value]) == id
    ensures r.Some? ==> forall j :: 0 <= j < r.value ==> idOf(s[j]) != id
    ensures r.None? <==> forall j :: 0 <= j < |s| ==> idOf(s[j]) != id
  {
    FirstIndex(s, x => idOf(x) == id)
  }

  /** `find(r => r.id === id)`: the first record holding `id`. */
  function LookupId<T>(s: seq<T>, idOf: T -> string, id: string): (r: Option<T>)
    ensures r.Some? ==> r.value in s && idOf(r.value) == id
    ensures r.Some? ==> exists i :: 0 <= i < |s| && s[i] == r.value && forall j :: 0 <= j < i ==> idOf(s[j]) != id
    ensures r.None? <==> forall j :: 0 <= j < |s| ==> idOf(s[j]) != id
  {
    match IndexOfId(s, idOf, id)
    case None => None
    case Some(i) => Some(s[i])
  }

  /** `filter(r => r.id !== id)`. */
  function RemoveId<T>(s: seq<T>, idOf: T -> string, id: string): seq<T>
  {
    Filter(s, x => idOf(x) != id)
  }

  /** Removal drops every record with the id, keeps every copy of every
      other record in its original order, and is the identity when the id
      is absent. */
  lemma RemoveIdSpec<T>(s: seq<T>, idOf: T -> string, id: string)
    ensures forall i :: 0 <= i < |RemoveId(s, idOf, id)| ==> idOf(RemoveId(s, idOf, id)[i]) != id
    ensures forall i :: 0 <= i < |s| && idOf(s[i]) != id ==> s[i] in RemoveId(s, idOf, id)
    ensures IsSubsequence(RemoveId(s, idOf, id), s)
    ensures forall x :: multiset(RemoveId(s, idOf, id))[x] == if idOf(x) != id then multiset(s)[x] else 0
    ensures (forall i :: 0 <= i < |s| ==> idOf(s[i]) != id) ==> RemoveId(s, idOf, id) == s
  {
    FilterIsSubsequence(s, x => idOf(x) != id);
    FilterMultiset(s, x => idOf(x) != id);
    if forall i :: 0 <= i < |s| ==> idOf(s[i]) != id {
      FilterKeepsAll(s, x => idOf(x) != id);
    }
  }

  /** After a removal, looking the id up finds nothing. */
  lemma LookupAfterRemove<T>(s: seq<T>, idOf: T -> string, id: string)
    ensures LookupId(RemoveId(s, idOf, id), idOf, id) == None
  {
    RemoveIdSpec(s, idOf, id);
  }

  /** Removing twice is removing once. */
  lemma RemoveIdIdempotent<T>(s: seq<T>, idOf: T -> string, id: string)
    ensures RemoveId(RemoveId(s, idOf, id), idOf, id) == RemoveId(s, idOf, id)
  {
    var r := RemoveId(s, idOf, id);
    RemoveIdSpec(s, idOf, id);
    RemoveIdSpec(r, idOf, id);
  }

  /** `map(r => r.id === id ? f(r) : r)`: every record with the id is
      rewritten, every other record is left as it is. */
  function MapWhereId<T>(s: seq<T>, idOf: T -> string, id: string, f: T -> T): (r: seq<T>)
  {
    seq(|s|, i requires 0 <= i < |s| => if idOf(s[i]) == id then f(s[i]) else s[i])
  }

  /** With unique ids, rewriting every record with the id and rewriting the
      record at its first position are the same thing. */
  lemma MapWhereIdUnique<T>(s: seq<T>, idOf: T -> string, id: string, f: T -> T)
    requires UniqueIds(s, idOf)
    requires IndexOfId(s, idOf, id).Some?
    ensures var i := IndexOfId(s, idOf, id).value;
      MapWhereId(s, idOf, id, f) == s[i := f(s[i])]
  {
    var i := IndexOfId(s, idOf, id).value;
    var r := MapWhereId(s, idOf, id, f);
    forall j | 0 <= j < |s| ensures r[j] == s[i := f(s[i])][j] {
    }
  }

  /** When no record holds the id, the rewrite leaves the table as it is. */
  lemma MapWhereIdAbsent<T>(s: seq<T>, idOf: T -> string, id: string, f: T -> T)
    requires IndexOfId(s, idOf, id).None?
    ensures MapWhereId(s, idOf, id, f) == s
  {
  }
}
