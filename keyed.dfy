/** Document collections keyed on one id field (guild_id, member_id), as the
    bot's MongoDB collections are queried: find_one and delete_one act on the
    first document with the key in stored order. */
module Keyed {
  import opened Common

  /** The position of the first document whose key is id (find_one on the key). */
  function FindKey<T(!new)>(docs: seq<T>, key: T -> Id, id: Id): (r: Option<nat>)
    ensures r.Some? ==> r.value < |docs| && key(docs[r.value]) == id
    ensures r.Some? ==> forall j :: 0 <= j < r.value ==> key(docs[j]) != id
    ensures r.None? <==> forall j :: 0 <= j < |docs| ==> key(docs[j]) != id
  {
    if |docs| == 0 then None
    else if key(docs[0]) == id then Some(0)
    else match FindKey(docs[1..], key, id)
      case None =>
        assert forall j :: 1 <= j < |docs| ==> docs[j] == docs[1..][j - 1];
        None
      case Some(k) => Some(k + 1)
  }

  /** At most one document per key. */
  predicate UniqueKeys<T(!new)>(docs: seq<T>, key: T -> Id) {
    forall i, j :: 0 <= i < j < |docs| ==> key(docs[i]) != key(docs[j])
  }

  /** delete_one on the key: the first document whose key is id goes. */
  function DeleteFirstKey<T(!new)>(docs: seq<T>, key: T -> Id, id: Id): seq<T> {
    if |docs| == 0 then []
    else if key(docs[0]) == id then docs[1..]
    else [docs[0]] + DeleteFirstKey(docs[1..], key, id)
  }

  /** The documents whose key is not in gone, in stored order. */
  function DropKeys<T(!new)>(docs: seq<T>, key: T -> Id, gone: set<Id>): (r: seq<T>)
    ensures forall d :: d in r <==> d in docs && key(d) !in gone
  {
    if |docs| == 0 then []
    else if key(docs[0]) in gone then DropKeys(docs[1..], key, gone)
    else [docs[0]] + DropKeys(docs[1..], key, gone)
  }

  /** The documents whose key is in live: what a purge of dead keys
      should leave behind. */
  function KeepKeys<T(!new)>(docs: seq<T>, key: T -> Id, live: set<Id>): (r: seq<T>)
    ensures forall d :: d in r <==> d in docs && key(d) in live
  {
    if |docs| == 0 then []
    else if key(docs[0]) in live then [docs[0]] + KeepKeys(docs[1..], key, live)
    else KeepKeys(docs[1..], key, live)
  }

  lemma UniqueKeysTail<T(!new)>(docs: seq<T>, key: T -> Id)
    requires UniqueKeys(docs, key) && |docs| > 0
    ensures UniqueKeys(docs[1..], key)
    ensures forall d :: d in docs[1..] ==> key(d) != key(docs[0])
  {
    forall i, j | 0 <= i < j < |docs[1..]| ensures key(docs[1..][i]) != key(docs[1..][j]) {
      assert docs[1..][i] == docs[i + 1] && docs[1..][j] == docs[j + 1];
    }
    forall d | d in docs[1..] ensures key(d) != key(docs[0]) {
      var k :| 0 <= k < |docs[1..]| && docs[1..][k] == d;
      assert docs[k + 1] == d;
    }
  }

  /** With one document per key, delete_one on a key drops that key. */
  lemma {:induction false} DeleteFirstKeyDrops<T(!new)>(docs: seq<T>, key: T -> Id, id: Id)
    requires UniqueKeys(docs, key)
    ensures DeleteFirstKey(docs, key, id) == DropKeys(docs, key, {id})
  {
    if |docs| > 0 {
      UniqueKeysTail(docs, key);
      if key(docs[0]) == id {
        NoKeyNothingDropped(docs[1..], key, id);
      } else {
        DeleteFirstKeyDrops(docs[1..], key, id);
      }
    }
  }

  lemma {:induction false} NoKeyNothingDropped<T(!new)>(docs: seq<T>, key: T -> Id, id: Id)
    requires forall d :: d in docs ==> key(d) != id
    ensures DropKeys(docs, key, {id}) == docs
  {
    if |docs| > 0 {
      assert forall d :: d in docs[1..] ==> d in docs;
      NoKeyNothingDropped(docs[1..], key, id);
    }
  }

  lemma {:induction false} NoKeysDropped<T(!new)>(docs: seq<T>, key: T -> Id)
    ensures DropKeys(docs, key, {}) == docs
  {
    if |docs| > 0 {
      NoKeysDropped(docs[1..], key);
    }
  }

  lemma {:induction false} DropKeysCompose<T(!new)>(docs: seq<T>, key: T -> Id, gone: set<Id>, id: Id)
    ensures DropKeys(DropKeys(docs, key, gone), key, {id}) == DropKeys(docs, key, gone + {id})
  {
    if |docs| > 0 {
      DropKeysCompose(docs[1..], key, gone, id);
    }
  }

  lemma {:induction false} DropKeysUnique<T(!new)>(docs: seq<T>, key: T -> Id, gone: set<Id>)
    requires UniqueKeys(docs, key)
    ensures UniqueKeys(DropKeys(docs, key, gone), key)
  {
    if |docs| > 0 {
      UniqueKeysTail(docs, key);
      DropKeysUnique(docs[1..], key, gone);
      var t := DropKeys(docs[1..], key, gone);
      if key(docs[0]) !in gone {
        assert forall j :: 0 <= j < |t| ==> t[j] in docs[1..];
        assert forall i :: 0 < i < |[docs[0]] + t| ==> ([docs[0]] + t)[i] == t[i - 1];
      }
    }
  }

  lemma {:induction false} DroppingDeadKeysKeepsLive<T(!new)>(docs: seq<T>, key: T -> Id, gone: set<Id>, live: set<Id>)
    requires forall d :: d in docs ==> (key(d) in gone <==> key(d) !in live)
    ensures DropKeys(docs, key, gone) == KeepKeys(docs, key, live)
  {
    if |docs| > 0 {
      assert forall d :: d in docs[1..] ==> d in docs;
      DroppingDeadKeysKeepsLive(docs[1..], key, gone, live);
    }
  }
}
