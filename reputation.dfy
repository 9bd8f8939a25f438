/** Member reputation votes (FIX/reputation.py): the reputations collection
    keeps, per member, the ids of the members who upvoted and who downvoted
    them.  Voting one way pulls the voter from the other list and pushes it
    onto this one. */
module Reputation {
  import opened Common
  import opened Keyed

  /** The two lists of a reputations document. */
  datatype Vote = Up | Down {
    function Opposite(): Vote {
      if this == Up then Down else Up
    }
  }

  /** A reputations document; a list the document lacks reads as empty. */
  datatype RepDocument = RepDocument(member: Id, upvotes: seq<Id>, downvotes: seq<Id>) {
    function Voters(v: Vote): seq<Id> {
      if v == Up then upvotes else downvotes
    }

    function WithVoters(v: Vote, s: seq<Id>): (d: RepDocument)
      ensures d.member == member && d.Voters(v) == s && d.Voters(v.Opposite()) == Voters(v.Opposite())
    {
      if v == Up then this.(upvotes := s) else this.(downvotes := s)
    }
  }

  function RepMember(d: RepDocument): Id { d.member }

  /** get_upvotes and get_downvotes: the list in the member's first document,
      or the empty list when there is none. */
  function Votes(docs: seq<RepDocument>, target: Id, v: Vote): (r: seq<Id>)
    ensures FindKey(docs, RepMember, target).None? ==> r == []
  {
    match FindKey(docs, RepMember, target)
    case None => []
    case Some(i) => docs[i].Voters(v)
  }

  predicate NoDuplicates(s: seq<Id>) {
    forall i, j :: 0 <= i < j < |s| ==> s[i] != s[j]
  }

  /** The list with every occurrence of the voter pulled ($pull). */
  function WithoutVoter(s: seq<Id>, voter: Id): (r: seq<Id>)
    ensures forall x :: x in r <==> x in s && x != voter
  {
    if |s| == 0 then []
    else if s[0] == voter then WithoutVoter(s[1..], voter)
    else [s[0]] + WithoutVoter(s[1..], voter)
  }

  /** Pulling from a list without duplicates removes one element when the
      voter is in it and none otherwise, and leaves no duplicates. */
  lemma {:induction false} WithoutVoterCount(s: seq<Id>, voter: Id)
    requires NoDuplicates(s)
    ensures |WithoutVoter(s, voter)| == if voter in s then |s| - 1 else |s|
    ensures NoDuplicates(WithoutVoter(s, voter))
  {
    if |s| > 0 {
      assert NoDuplicates(s[1..]) by {
        forall i, j | 0 <= i < j < |s[1..]| ensures s[1..][i] != s[1..][j] {
          assert s[1..][i] == s[i + 1] && s[1..][j] == s[j + 1];
        }
      }
      WithoutVoterCount(s[1..], voter);
      if s[0] == voter {
        assert voter !in s[1..] by {
          forall k | 0 <= k < |s[1..]| ensures s[1..][k] != voter {
            assert s[1..][k] == s[k + 1];
          }
        }
      } else {
        assert voter in s <==> voter in s[1..];
        var t := WithoutVoter(s[1..], voter);
        assert s[0] !in s[1..] by {
          forall k | 0 <= k < |s[1..]| ensures s[1..][k] != s[0] {
            assert s[1..][k] == s[k + 1];
          }
        }
        assert forall i :: 0 < i < |[s[0]] + t| ==> ([s[0]] + t)[i] == t[i - 1];
      }
    }
  }

  /** update_one on member_id with $pull on the list, no upsert. */
  function Pull(docs: seq<RepDocument>, target: Id, voter: Id, v: Vote): (r: seq<RepDocument>)
    ensures |r| == |docs|
    ensures forall j :: 0 <= j < |docs| ==> r[j].member == docs[j].member
    ensures forall j :: 0 <= j < |docs| && docs[j].member != target ==> r[j] == docs[j]
  {
    match FindKey(docs, RepMember, target)
    case None => docs
    case Some(i) => docs[i := docs[i].WithVoters(v, WithoutVoter(docs[i].Voters(v), voter))]
  }

  /** update_one on member_id with $push on the list and upsert. */
  function Push(docs: seq<RepDocument>, target: Id, voter: Id, v: Vote): (r: seq<RepDocument>)
    ensures |r| == |docs| + (if FindKey(docs, RepMember, target).None? then 1 else 0)
    ensures forall j :: 0 <= j < |docs| ==> r[j].member == docs[j].member
    ensures forall j :: 0 <= j < |docs| && docs[j].member != target ==> r[j] == docs[j]
    ensures FindKey(docs, RepMember, target).None? ==> r[|docs|].member == target
  {
    match FindKey(docs, RepMember, target)
    case None => docs + [RepDocument(target, [], []).WithVoters(v, [voter])]
    case Some(i) => docs[i := docs[i].WithVoters(v, docs[i].Voters(v) + [voter])]
  }

  /** upvote_member (v = Up) and downvote_member (v = Down): pull from the
      opposite list, then push onto this one. */
  function CastVote(docs: seq<RepDocument>, voter: Id, target: Id, v: Vote): (r: seq<RepDocument>)
    ensures |r| == |docs| + (if FindKey(docs, RepMember, target).None? then 1 else 0)
    ensures forall j :: 0 <= j < |docs| ==> r[j].member == docs[j].member
    ensures forall j :: 0 <= j < |docs| && docs[j].member != target ==> r[j] == docs[j]
    ensures |r| > |docs| ==> r[|docs|].member == target
  {
    Push(Pull(docs, target, voter, v.Opposite()), target, voter, v)
  }

  /** After a vote the voter is last in the target's list for that vote and
      in no position of the opposite list, which has lost exactly its
      occurrences of the voter; every other member's lists are unchanged. */
  lemma CastVoteMoves(docs: seq<RepDocument>, voter: Id, target: Id, v: Vote)
    ensures Votes(CastVote(docs, voter, target, v), target, v) == Votes(docs, target, v) + [voter]
    ensures Votes(CastVote(docs, voter, target, v), target, v.Opposite()) ==
            WithoutVoter(Votes(docs, target, v.Opposite()), voter)
    ensures voter !in Votes(CastVote(docs, voter, target, v), target, v.Opposite())
    ensures forall m, w :: m != target ==> Votes(CastVote(docs, voter, target, v), m, w) == Votes(docs, m, w)
  {
    var pulled := Pull(docs, target, voter, v.Opposite());
    var r := CastVote(docs, voter, target, v);
    match FindKey(docs, RepMember, target)
    case None =>
      assert pulled == docs;
      forall m, w | m != target ensures Votes(r, m, w) == Votes(docs, m, w) {
        FindKeyAfterAppend(docs, RepDocument(target, [], []).WithVoters(v, [voter]), m);
      }
      FindKeyAppended(docs, RepDocument(target, [], []).WithVoters(v, [voter]));
    case Some(i) =>
      FindKeyAfterUpdate(docs, i, pulled[i]);
      FindKeyAfterUpdate(pulled, i, r[i]);
  }

  lemma {:induction false} FindKeyAfterAppend(docs: seq<RepDocument>, d: RepDocument, m: Id)
    requires d.member != m
    ensures FindKey(docs + [d], RepMember, m) == FindKey(docs, RepMember, m)
  {
    if |docs| > 0 {
      FindKeyAfterAppend(docs[1..], d, m);
      assert (docs + [d])[1..] == docs[1..] + [d];
    }
  }

  lemma {:induction false} FindKeyAppended(docs: seq<RepDocument>, d: RepDocument)
    requires FindKey(docs, RepMember, d.member).None?
    ensures FindKey(docs + [d], RepMember, d.member) == Some(|docs|)
  {
    if |docs| > 0 {
      FindKeyAppended(docs[1..], d);
      assert (docs + [d])[1..] == docs[1..] + [d];
    }
  }

  lemma {:induction false} FindKeyAfterUpdate(docs: seq<RepDocument>, i: nat, d: RepDocument)
    requires i < |docs| && d.member == docs[i].member
    ensures forall m :: FindKey(docs[i := d], RepMember, m) == FindKey(docs, RepMember, m)
  {
    if i > 0 {
      FindKeyAfterUpdate(docs[1..], i - 1, d);
      assert docs[i := d][1..] == docs[1..][i - 1 := d];
    }
  }

  /** What the vote commands answer. */
  datatype VoteReply = Voted | SelfVote | AlreadyVoted

  /** The reputations collection. */
  class ReputationStore {
    var documents: seq<RepDocument>

    /** Each list holds a voter at most once, and no voter is in both lists
        of a document. */
    predicate Valid()
      reads this
    {
      ValidDocuments(documents)
    }

    constructor()
      ensures Valid() && documents == []
    {
      documents := [];
    }

    /** upvote_member. */
    method UpvoteMember(voter: Id, target: Id)
      modifies this
      ensures documents == CastVote(old(documents), voter, target, Up)
    {
      documents := Pull(documents, target, voter, Down);
      documents := Push(documents, target, voter, Up);
    }

    /** downvote_member. */
    method DownvoteMember(voter: Id, target: Id)
      modifies this
      ensures documents == CastVote(old(documents), voter, target, Down)
    {
      documents := Pull(documents, target, voter, Up);
      documents := Push(documents, target, voter, Down);
    }

    /** The upvote and downvote commands: voting for oneself, or voting again
        the way one already voted, is refused with no change; otherwise the
        vote is cast, the list voted in grows by one and the opposite list
        shrinks by one exactly when the voter was in it. */
    method CastVoteCommand(voter: Id, target: Id, v: Vote) returns (reply: VoteReply)
      requires Valid()
      modifies this
      ensures Valid()
      ensures reply == Voted <==> voter != target && voter !in old(Votes(documents, target, v))
      ensures voter == target ==> reply == SelfVote
      ensures voter != target && voter in old(Votes(documents, target, v)) ==> reply == AlreadyVoted
      ensures reply != Voted ==> documents == old(documents)
      ensures reply == Voted ==>
        documents == CastVote(old(documents), voter, target, v) &&
        |Votes(documents, target, v)| == |old(Votes(documents, target, v))| + 1 &&
        |Votes(documents, target, v.Opposite())| ==
          if voter in old(Votes(documents, target, v.Opposite()))
          then |old(Votes(documents, target, v.Opposite()))| - 1
          else |old(Votes(documents, target, v.Opposite()))|
    {
      if voter == target {
        return SelfVote;
      }
      if voter in Votes(documents, target, v) {
        return AlreadyVoted;
      }
      CastVoteMoves(documents, voter, target, v);
      ListsOfValid(documents, target, v);
      WithoutVoterCount(Votes(documents, target, v.Opposite()), voter);
      CastVoteKeepsValid(documents, voter, target, v);
      if v == Up {
        UpvoteMember(voter, target);
      } else {
        DownvoteMember(voter, target);
      }
      reply := Voted;
    }
  }

  /** One document's lists: no voter twice in a list, none in both. */
  predicate DocumentValid(d: RepDocument) {
    NoDuplicates(d.upvotes) && NoDuplicates(d.downvotes) &&
    forall x :: x in d.upvotes ==> x !in d.downvotes
  }

  /** The invariant of ReputationStore over a plain sequence. */
  predicate ValidDocuments(docs: seq<RepDocument>) {
    forall d :: d in docs ==> DocumentValid(d)
  }

  lemma ListsOfValid(docs: seq<RepDocument>, target: Id, v: Vote)
    requires ValidDocuments(docs)
    ensures NoDuplicates(Votes(docs, target, v)) && NoDuplicates(Votes(docs, target, v.Opposite()))
  {
    match FindKey(docs, RepMember, target)
    case None =>
    case Some(i) =>
      assert docs[i] in docs;
  }

  /** Moving a voter who is not yet in the list voted in keeps a document valid. */
  lemma MoveKeepsDocumentValid(d: RepDocument, voter: Id, v: Vote)
    requires DocumentValid(d) && voter !in d.Voters(v)
    ensures DocumentValid(d.WithVoters(v.Opposite(), WithoutVoter(d.Voters(v.Opposite()), voter))
                           .WithVoters(v, d.Voters(v) + [voter]))
  {
    WithoutVoterCount(d.Voters(v.Opposite()), voter);
    var grown := d.Voters(v) + [voter];
    assert NoDuplicates(grown) by {
      forall a, b | 0 <= a < b < |grown| ensures grown[a] != grown[b] {
        if b == |grown| - 1 {
          assert grown[a] in d.Voters(v);
        }
      }
    }
  }

  lemma UpdateKeepsValid(docs: seq<RepDocument>, i: nat, d: RepDocument)
    requires ValidDocuments(docs) && i < |docs| && DocumentValid(d)
    ensures ValidDocuments(docs[i := d])
  {
    forall e | e in docs[i := d] ensures DocumentValid(e) {
      var k :| 0 <= k < |docs| && docs[i := d][k] == e;
      if k != i {
        assert docs[k] in docs;
      }
    }
  }

  /** A vote guarded by the commands keeps every list free of duplicates and
      the two lists of a document disjoint. */
  lemma CastVoteKeepsValid(docs: seq<RepDocument>, voter: Id, target: Id, v: Vote)
    requires ValidDocuments(docs) && voter !in Votes(docs, target, v)
    ensures ValidDocuments(CastVote(docs, voter, target, v))
  {
    match FindKey(docs, RepMember, target)
    case None =>
      var newDoc := RepDocument(target, [], []).WithVoters(v, [voter]);
      assert DocumentValid(newDoc);
      forall e | e in docs + [newDoc] ensures DocumentValid(e) {
        if e != newDoc {
          assert e in docs;
        }
      }
    case Some(i) =>
      assert docs[i] in docs;
      var pulled := Pull(docs, target, voter, v.Opposite());
      FindKeyAfterUpdate(docs, i, pulled[i]);
      MoveKeepsDocumentValid(docs[i], voter, v);
      UpdateKeepsValid(docs, i, CastVote(docs, voter, target, v)[i]);
      assert CastVote(docs, voter, target, v) == docs[i := CastVote(docs, voter, target, v)[i]];
  }
}
