/** Idea voting (cogs/ideas.py): the idea record created by `suggest`, the
    one-vote-per-user rule of the star menu, the administrator decision,
    and the refresh of the idea's embed fields. */
module Ideas {
  import opened PyText

  datatype IdeaStatus = Pending | IdeaAccepted | IdeaRejected

  /** A stored idea; the votes map is keyed by the voter's id as text. */
  datatype Idea = Idea(
    authorId: string, title: string, description: string, timestamp: string,
    votes: map<string, int>, status: IdeaStatus, decisionReason: Option<string>)

  /** The record `suggest` stores: pending, no votes, no reason. */
  function NewIdea(author: string, title: string, description: string, timestamp: string): (i: Idea)
    ensures i.status == Pending && i.votes == map[] && i.decisionReason == None
    ensures i.authorId == author && i.title == title && i.description == description
  {
    Idea(author, title, description, timestamp, map[], Pending, None)
  }

  // -------------------------------------------------------------- suggest

  datatype SuggestReply = ChannelNotConfigured | ChannelNotFound | Submitted

  /** `suggest`: the idea is stored under the id of the message that was
      posted for it; without a configured, reachable channel nothing is
      stored. */
  function SuggestStep(ideas: map<string, Idea>, channelConfigured: bool, channelFound: bool,
                       messageId: string, author: string, title: string, description: string,
                       timestamp: string): (r: (map<string, Idea>, SuggestReply))
    ensures r.1 != Submitted ==> r.0 == ideas
    ensures r.1 == Submitted <==> channelConfigured && channelFound
    ensures r.1 == Submitted ==>
      && r.0.Keys == ideas.Keys + {messageId}
      && r.0[messageId] == NewIdea(author, title, description, timestamp)
      && (forall m :: m in ideas && m != messageId ==> r.0[m] == ideas[m])
  {
    if !channelConfigured then (ideas, ChannelNotConfigured)
    else if !channelFound then (ideas, ChannelNotFound)
    else (ideas[messageId := NewIdea(author, title, description, timestamp)], Submitted)
  }

  // ---------------------------------------------------------------- votes

  /** The values of the star menu: `str(i)` for `i` in `range(1, 6)`. */
  function VoteOptions(): (r: seq<string>)
    ensures |r| == 5
  {
    OptionsFrom(1)
  }

  function OptionsFrom(i: nat): (r: seq<string>)
    requires 1 <= i <= 6
    decreases 6 - i
    ensures |r| == 6 - i
    ensures forall k :: 0 <= k < |r| ==> r[k] == NatToString(i + k)
  {
    if i == 6 then [] else [NatToString(i)] + OptionsFrom(i + 1)
  }

  /** Every option of the menu parses to a star count from 1 to 5, and each
      count from 1 to 5 is offered. */
  lemma VoteOptionsInRange()
    ensures forall v :: v in VoteOptions() ==>
      ParseInt(v).Some? && 1 <= ParseInt(v).value <= 5
    ensures forall n :: 1 <= n <= 5 ==> NatToString(n) in VoteOptions()
  {
    var opts := VoteOptions();
    forall v | v in opts ensures ParseInt(v).Some? && 1 <= ParseInt(v).value <= 5 {
      var k :| 0 <= k < |opts| && opts[k] == v;
      ParseNatToString(1 + k);
    }
    forall n | 1 <= n <= 5 ensures NatToString(n) in opts {
      assert opts[n - 1] == NatToString(n);
    }
  }

  /** `int(self.values[0])`: the stars of a menu value. */
  function StarsOf(choice: string): (n: int)
    requires choice in VoteOptions()
    ensures 1 <= n <= 5
    ensures ParseInt(choice) == Some(n)
  {
    VoteOptionsInRange();
    ParseInt(choice).value
  }

  datatype VoteReply = IdeaNotFound | VotingClosed | OwnIdea
                     | SameVote(stars: int) | VoteChanged(from: int, to: int) | Voted(stars: int)

  /** The star menu callback for a voter who picked `choice`, one of the
      menu's values. */
  function VoteStep(ideas: map<string, Idea>, messageId: string, voter: string, choice: string)
    : (r: (map<string, Idea>, VoteReply))
    requires choice in VoteOptions()
    ensures r.1 in {IdeaNotFound, VotingClosed, OwnIdea} || r.1.SameVote? ==> r.0 == ideas
    ensures r.1 == IdeaNotFound <==> messageId !in ideas
    ensures r.1 == VotingClosed <==> messageId in ideas && ideas[messageId].status != Pending
    ensures r.1 == OwnIdea <==>
      messageId in ideas && ideas[messageId].status == Pending && voter == ideas[messageId].authorId
  {
    if messageId !in ideas then (ideas, IdeaNotFound)
    else
      var idea := ideas[messageId];
      if idea.status != Pending then (ideas, VotingClosed)
      else if voter == idea.authorId then (ideas, OwnIdea)
      else
        var vote := StarsOf(choice);
        var reply := if voter !in idea.votes then Voted(vote)
                     else if idea.votes[voter] == vote then SameVote(vote)
                     else VoteChanged(idea.votes[voter], vote);
        if reply.SameVote? then (ideas, reply)
        else (ideas[messageId := idea.(votes := idea.votes[voter := vote])], reply)
  }

  predicate VotesInRange(ideas: map<string, Idea>) {
    forall m, u :: m in ideas && u in ideas[m].votes ==> 1 <= ideas[m].votes[u] <= 5
  }

  /** An accepted vote records exactly the voter's new star count; every
      other vote, idea and field stays as it was, and stars stay in 1..5. */
  lemma VoteRecordsOneVote(ideas: map<string, Idea>, messageId: string, voter: string, choice: string)
    requires choice in VoteOptions()
    requires VotesInRange(ideas)
    ensures var (ideas', reply) := VoteStep(ideas, messageId, voter, choice);
      && VotesInRange(ideas')
      && ideas'.Keys == ideas.Keys
      && (forall m :: m in ideas && m != messageId ==> ideas'[m] == ideas[m])
      && ((reply.Voted? || reply.VoteChanged?) ==>
            && ideas'[messageId] == ideas[messageId].(votes := ideas'[messageId].votes)
            && ideas'[messageId].votes.Keys == ideas[messageId].votes.Keys + {voter}
            && ideas'[messageId].votes[voter] == StarsOf(choice)
            && (forall u :: u in ideas[messageId].votes && u != voter ==>
                  ideas'[messageId].votes[u] == ideas[messageId].votes[u]))
      && (reply.Voted? <==> reply !in {IdeaNotFound, VotingClosed, OwnIdea} && voter !in ideas[messageId].votes)
  {
    if messageId in ideas && ideas[messageId].status == Pending && voter != ideas[messageId].authorId {
      var idea := ideas[messageId];
      var votes' := idea.votes[voter := StarsOf(choice)];
      assert forall u :: u in votes' ==> 1 <= votes'[u] <= 5;
    }
  }

  /** Voting the same stars twice in a row changes nothing the second time. */
  lemma RevoteSameIsNoOp(ideas: map<string, Idea>, messageId: string, voter: string, choice: string)
    requires choice in VoteOptions()
    ensures var once := VoteStep(ideas, messageId, voter, choice).0;
      var twice := VoteStep(once, messageId, voter, choice);
      && twice.0 == once
      && ((messageId in ideas && ideas[messageId].status == Pending && voter != ideas[messageId].authorId)
            ==> twice.1 == SameVote(StarsOf(choice)))
  {
  }

  // ------------------------------------------------------------- decision

  datatype Decision = Accept | Reject

  /** `DecisionModal.on_submit`: the status and the reason are overwritten;
      an unknown idea changes nothing. */
  function DecideStep(ideas: map<string, Idea>, messageId: string, decision: Decision, reason: string)
    : (r: map<string, Idea>)
    ensures messageId !in ideas ==> r == ideas
    ensures r.Keys == ideas.Keys
    ensures forall m :: m in ideas && m != messageId ==> r[m] == ideas[m]
    ensures messageId in ideas ==>
      && r[messageId].status == (if decision == Accept then IdeaAccepted else IdeaRejected)
      && r[messageId].status != Pending
      && r[messageId].decisionReason == Some(reason)
      && r[messageId] == ideas[messageId].(status := r[messageId].status, decisionReason := Some(reason))
  {
    if messageId !in ideas then ideas
    else
      var idea := ideas[messageId];
      ideas[messageId := idea.(status := if decision == Accept then IdeaAccepted else IdeaRejected,
                               decisionReason := Some(reason))]
  }

  /** After a decision every vote on that idea is refused and changes
      nothing, and the decision keeps the votes cast so far. */
  lemma DecisionClosesVoting(ideas: map<string, Idea>, messageId: string, decision: Decision,
                             reason: string, voter: string, choice: string)
    requires messageId in ideas && choice in VoteOptions()
    ensures var decided := DecideStep(ideas, messageId, decision, reason);
      && decided[messageId].votes == ideas[messageId].votes
      && VoteStep(decided, messageId, voter, choice) == (decided, VotingClosed)
  {
  }

  // --------------------------------------------------------------- rating

  datatype Rating = NoVotes | Average(total: int, count: nat)

  ghost function Total(votes: map<string, int>): (t: int)
    decreases |votes|
    ensures (forall u :: u in votes ==> 1 <= votes[u] <= 5) ==> |votes| <= t <= 5 * |votes|
  {
    if |votes| == 0 then 0
    else
      var u :| u in votes;
      votes[u] + Total(votes - {u})
  }

  /** `calculate_rating` before rounding: 0 with no votes, otherwise the sum
      over the count, which for star votes lies between 1 and 5. */
  ghost function RatingOf(votes: map<string, int>): (r: Rating)
    ensures r == NoVotes <==> votes == map[]
    ensures r.Average? ==> r.count == |votes| > 0
    ensures r.Average? && (forall u :: u in votes ==> 1 <= votes[u] <= 5) ==>
      r.count <= r.total <= 5 * r.count
  {
    if votes == map[] then NoVotes
    else
      assert exists u :: u in votes;
      Average(Total(votes), |votes|)
  }

  // ------------------------------------------------------ embed refresh

  datatype Field = Field(name: string, value: string, inline: bool)

  const RatingField := "Рейтинг"
  const StatusField := "Статус"
  const ReasonField := "Причина:"

  /** `set_field_at` on every field with the name. */
  function SetNamed(fields: seq<Field>, name: string, value: string): (r: seq<Field>)
    ensures |r| == |fields|
    ensures forall i :: 0 <= i < |fields| ==>
      r[i] == if fields[i].name == name then Field(name, value, true) else fields[i]
  {
    if fields == [] then []
    else SetNamed(fields[..|fields| - 1], name, value)
         + [if fields[|fields| - 1].name == name then Field(name, value, true) else fields[|fields| - 1]]
  }

  /** The loop `for i, field in enumerate(embed.fields)` that rewrites the
      fields with the name, in place. */
  method SetNamedInPlace(fields: array<Field>, name: string, value: string)
    modifies fields
    ensures fields[..] == SetNamed(old(fields[..]), name, value)
  {
    ghost var orig := fields[..];
    var i := 0;
    while i < fields.Length
      invariant 0 <= i <= fields.Length
      invariant forall k :: 0 <= k < i ==>
        fields[k] == if orig[k].name == name then Field(name, value, true) else orig[k]
      invariant forall k :: i <= k < fields.Length ==> fields[k] == orig[k]
    {
      if fields[i].name == name {
        fields[i] := Field(name, value, true);
      }
      i := i + 1;
    }
  }

  predicate HasField(fields: seq<Field>, name: string) {
    exists i :: 0 <= i < |fields| && fields[i].name == name
  }

  function StatusText(s: IdeaStatus): string {
    if s == IdeaAccepted then "✅ Принято" else "❌ Отклонено"
  }

  /** The fields `update_idea_message` leaves on the idea's embed;
      `ratingText` is the rendered rating. */
  function RefreshFields(fields: seq<Field>, idea: Idea, ratingText: string): (r: seq<Field>)
    ensures |fields| <= |r| <= |fields| + 1
    ensures forall i :: 0 <= i < |fields| ==> r[i].name == fields[i].name
    ensures idea.status == Pending ==> |r| == |fields|
  {
    var rated := SetNamed(fields, RatingField, ratingText + " ⭐");
    if idea.status == Pending then rated
    else
      var stated := SetNamed(rated, StatusField, StatusText(idea.status));
      if idea.decisionReason.Some? && idea.decisionReason.value != "" && !HasField(stated, ReasonField)
      then stated + [Field(ReasonField, idea.decisionReason.value, false)]
      else stated
  }

  function CountNamed(fields: seq<Field>, name: string): nat {
    if fields == [] then 0
    else CountNamed(fields[..|fields| - 1], name) + (if fields[|fields| - 1].name == name then 1 else 0)
  }

  lemma {:induction false} CountNamedPositive(fields: seq<Field>, name: string)
    ensures CountNamed(fields, name) > 0 <==> HasField(fields, name)
  {
    if fields != [] {
      var init := fields[..|fields| - 1];
      CountNamedPositive(init, name);
      if HasField(init, name) {
        var i :| 0 <= i < |init| && init[i].name == name;
        assert fields[i].name == name;
      }
      if HasField(fields, name) && fields[|fields| - 1].name != name {
        var i :| 0 <= i < |fields| && fields[i].name == name;
        assert init[i].name == name;
      }
    }
  }

  lemma SetNamedKeepsNames(fields: seq<Field>, name: string, value: string, other: string)
    ensures HasField(SetNamed(fields, name, value), other) <==> HasField(fields, other)
  {
    var r := SetNamed(fields, name, value);
    if HasField(fields, other) {
      var i :| 0 <= i < |fields| && fields[i].name == other;
      assert r[i].name == other;
    }
    if HasField(r, other) {
      var i :| 0 <= i < |r| && r[i].name == other;
      assert fields[i].name == other;
    }
  }

  lemma SetNamedTwice(fields: seq<Field>, name: string, value: string)
    ensures SetNamed(SetNamed(fields, name, value), name, value) == SetNamed(fields, name, value)
  {
  }

  lemma SetNamedCommute(fields: seq<Field>, a: string, va: string, b: string, vb: string)
    requires a != b
    ensures SetNamed(SetNamed(fields, a, va), b, vb) == SetNamed(SetNamed(fields, b, vb), a, va)
  {
  }

  /** Refreshing an idea's embed twice gives the same fields as refreshing
      it once: in particular the reason field is never added twice, and a
      decided idea with a reason carries at least one reason field. */
  lemma RefreshIdempotent(fields: seq<Field>, idea: Idea, ratingText: string)
    ensures RefreshFields(RefreshFields(fields, idea, ratingText), idea, ratingText)
         == RefreshFields(fields, idea, ratingText)
    ensures idea.status != Pending && idea.decisionReason.Some? && idea.decisionReason.value != "" ==>
      HasField(RefreshFields(fields, idea, ratingText), ReasonField)
  {
    var rt := ratingText + " ⭐";
    var once := RefreshFields(fields, idea, ratingText);
    SetNamedTwice(fields, RatingField, rt);
    if idea.status != Pending {
      var st := StatusText(idea.status);
      var rated := SetNamed(fields, RatingField, rt);
      var stated := SetNamed(rated, StatusField, st);
      SetNamedCommute(stated, RatingField, rt, StatusField, st);
      SetNamedTwice(rated, StatusField, st);
      SetNamedTwice(SetNamed(fields, StatusField, st), RatingField, rt);
      SetNamedCommute(fields, RatingField, rt, StatusField, st);
      assert SetNamed(SetNamed(stated, RatingField, rt), StatusField, st) == stated;
      if idea.decisionReason.Some? && idea.decisionReason.value != "" && !HasField(stated, ReasonField) {
        var added := Field(ReasonField, idea.decisionReason.value, false);
        assert once == stated + [added];
        assert once[|stated|].name == ReasonField;
        SetNamedAppend(stated, added, RatingField, rt);
        SetNamedAppend(stated, added, StatusField, st);
        assert SetNamed(SetNamed(once, RatingField, rt), StatusField, st) == once;
      }
    }
  }

  lemma SetNamedAppend(fields: seq<Field>, f: Field, name: string, value: string)
    requires f.name != name
    ensures SetNamed(fields + [f], name, value) == SetNamed(fields, name, value) + [f]
  {
    assert (fields + [f])[..|fields|] == fields;
  }

  // ------------------------------------------------------------- the cog

  class IdeasCog {
    var ideas: map<string, Idea>

    constructor (stored: map<string, Idea>)
      ensures ideas == stored
    {
      ideas := stored;
    }

    method Suggest(channelConfigured: bool, channelFound: bool, messageId: string,
                   author: string, title: string, description: string, timestamp: string)
      returns (reply: SuggestReply)
      modifies this
      ensures (ideas, reply) == SuggestStep(old(ideas), channelConfigured, channelFound,
                                            messageId, author, title, description, timestamp)
    {
      if !channelConfigured {
        return ChannelNotConfigured;
      }
      if !channelFound {
        return ChannelNotFound;
      }
      ideas := ideas[messageId := NewIdea(author, title, description, timestamp)];
      reply := Submitted;
    }

    method Vote(messageId: string, voter: string, choice: string) returns (reply: VoteReply)
      requires choice in VoteOptions()
      modifies this
      ensures (ideas, reply) == VoteStep(old(ideas), messageId, voter, choice)
    {
      if messageId !in ideas {
        return IdeaNotFound;
      }
      var idea := ideas[messageId];
      if idea.status != Pending {
        return VotingClosed;
      }
      if voter == idea.authorId {
        return OwnIdea;
      }
      var vote := StarsOf(choice);
      if voter in idea.votes {
        var oldVote := idea.votes[voter];
        if oldVote == vote {
          return SameVote(vote);
        }
        reply := VoteChanged(oldVote, vote);
      } else {
        reply := Voted(vote);
      }
      ideas := ideas[messageId := idea.(votes := idea.votes[voter := vote])];
    }

    method Decide(messageId: string, decision: Decision, reason: string) returns (found: bool)
      modifies this
      ensures found <==> messageId in old(ideas)
      ensures ideas == DecideStep(old(ideas), messageId, decision, reason)
    {
      found := messageId in ideas;
      if found {
        var idea := ideas[messageId];
        ideas := ideas[messageId := idea.(status := if decision == Accept then IdeaAccepted else IdeaRejected,
                                          decisionReason := Some(reason))];
      }
    }
  }
}
