/** The profile's reputation figures (extensions/profile.py): the vote
    counts read from the reputations collection and the signed string the
    profile shows for them. */
module Profile {
  import opened Common
  import opened Keyed
  import opened Reputation

  /** get_reputation: the lengths of the member's two lists, (0, 0) when the
      member has no document. */
  function GetReputation(docs: seq<RepDocument>, member: Id): (r: (nat, nat))
    ensures r == (|Votes(docs, member, Up)|, |Votes(docs, member, Down)|)
  {
    match FindKey(docs, RepMember, member)
    case None => (0, 0)
    case Some(i) => (|docs[i].upvotes|, |docs[i].downvotes|)
  }

  /** get_reputation_string: upvotes minus downvotes, written with a '+' when
      positive, with Python's '-' when negative and as a lone "-" when zero. */
  function ReputationString(upvotes: nat, downvotes: nat): (s: string)
    ensures |s| >= 1
    ensures s == "-" <==> upvotes == downvotes
    ensures upvotes > downvotes ==> s[0] == '+' && IsDigits(s[1..])
    ensures upvotes < downvotes ==> s[0] == '-' && IsDigits(s[1..])
  {
    var reputation := upvotes - downvotes;
    if reputation > 0 then "+" + NatToString(reputation)
    else if reputation < 0 then IntToString(reputation)
    else "-"
  }

  /** Reads a reputation string back: the signed number it shows. */
  function ParseReputation(s: string): Option<int> {
    if s == "-" then Some(0)
    else if |s| >= 2 && s[0] == '+' && IsDigits(s[1..]) then Some(ParseDigits(s[1..]) as int)
    else if |s| >= 2 && s[0] == '-' && IsDigits(s[1..]) then Some(0 - ParseDigits(s[1..]) as int)
    else None
  }

  /** The string shows the net reputation and nothing is lost. */
  lemma ReputationRoundTrip(upvotes: nat, downvotes: nat)
    ensures ParseReputation(ReputationString(upvotes, downvotes)) == Some(upvotes - downvotes)
  {
    var n := upvotes - downvotes;
    var s := ReputationString(upvotes, downvotes);
    if n > 0 {
      assert s[1..] == NatToString(n);
      ParseNatToString(n);
    } else if n < 0 {
      assert s[1..] == NatToString(-n);
      ParseNatToString(-n);
    }
  }

  /** Two profiles show the same string exactly when their net reputations
      are equal. */
  lemma ReputationStringInjective(u1: nat, d1: nat, u2: nat, d2: nat)
    ensures ReputationString(u1, d1) == ReputationString(u2, d2) <==> u1 - d1 == u2 - d2
  {
    if ReputationString(u1, d1) == ReputationString(u2, d2) {
      ReputationRoundTrip(u1, d1);
      ReputationRoundTrip(u2, d2);
    }
  }

  /** Casting a vote raises the target's net reputation by one, or by two
      when the voter had voted the other way. */
  lemma VoteShiftsReputation(docs: seq<RepDocument>, voter: Id, target: Id)
    requires ValidDocuments(docs)
    ensures var (u, d) := GetReputation(docs, target);
            var (u', d') := GetReputation(CastVote(docs, voter, target, Up), target);
            u' - d' == u - d + (if voter in Votes(docs, target, Down) then 2 else 1)
    ensures var (u, d) := GetReputation(docs, target);
            var (u', d') := GetReputation(CastVote(docs, voter, target, Down), target);
            u' - d' == u - d - (if voter in Votes(docs, target, Up) then 2 else 1)
  {
    CastVoteMoves(docs, voter, target, Up);
    CastVoteMoves(docs, voter, target, Down);
    ListsOfValid(docs, target, Up);
    WithoutVoterCount(Votes(docs, target, Down), voter);
    WithoutVoterCount(Votes(docs, target, Up), voter);
  }
}
