/** The chat view as a whole: the state of ChatInterface shown through
    MessageList. Every handler of ChatInterface yields a state, so a fact about
    every state holds after any sequence of loads, feed events, sends and
    refreshes. The state itself can hold an id twice (the feed appends without
    looking); what is displayed never does. */
module ChatDisplay {
  import opened Base
  import opened Text
  import opened Types
  import opened MessageList
  import opened ChatInterface

  /** What the list view shows for a state. */
  function Displayed(s: ChatState): seq<Message> {
    Visible(Lift(s.messages))
  }

  /** In any state, each id carried by some message is shown exactly once,
      other ids not at all, in the order of the state. */
  lemma ShowsEachIdOnce(s: ChatState, id: string)
    ensures Occurrences(Displayed(s), id) == (if IdPresent(s.messages, id) then 1 else 0)
    ensures IsSubsequence(Lift(Displayed(s)), Lift(s.messages))
  {
    var raw := Lift(s.messages);
    var d := Displayed(s);
    VisibleSpec(raw);
    OccurrencesOfDistinct(d, id);
    ValidMembership(raw);
    var v := Valid(raw);
    if IdPresent(s.messages, id) {
      var k :| 0 <= k < |s.messages| && HasId(s.messages[k]) && s.messages[k].id == id;
      assert raw[k] == Some(s.messages[k]);
      assert s.messages[k] in v;
      var j :| 0 <= j < |v| && v[j] == s.messages[k];
      assert id in Ids(v);
    }
  }

  /** The same row arriving twice, once as the insert's answer and once from
      the feed, is held twice in the state and displayed once. */
  lemma EchoedRowIsShownOnce(s: ChatState, chatId: string, content: string, row: Message,
                             action: ActionOutcome, gen: Generated)
    requires Trim(content) != ""
    requires HasId(row) && !IdPresent(s.messages, row.id)
    ensures var s1 := HandleSend(s, chatId, content, InsertReturns(Some(row)), action, gen).state;
      var s2 := OnFeed(s1, Some([row]));
      && Occurrences(s2.messages, row.id) >= 2
      && Occurrences(Displayed(s2), row.id) == 1
  {
    var s1 := HandleSend(s, chatId, content, InsertReturns(Some(row)), action, gen).state;
    var s2 := OnFeed(s1, Some([row]));
    var replies := ActionStep(s.messages, chatId, action, gen).0;
    assert UserRow(s.messages, Some(row)) == [row];
    assert s1.messages == s.messages + ([row] + replies);
    assert s2.messages == s1.messages + [row];
    var id := row.id;
    assert Occurrences([row], id) == 1 by {
      assert [row][1..] == [];
    }
    OccurrencesAppend(s1.messages, [row], id);
    OccurrencesAppend(s.messages, [row] + replies, id);
    OccurrencesAppend([row], replies, id);
    assert IdPresent(s2.messages, id) by {
      assert s2.messages[|s1.messages|] == row;
    }
    ShowsEachIdOnce(s2, id);
  }
}
