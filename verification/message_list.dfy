/** The message list view (src/components/Chat/MessageList.tsx): the only
    place where the client guarantees that each message id is shown once.
    Its input is the chat's message array with possibly-null entries; it drops
    entries without an id, then keeps each message only if it is the first
    with its id (`findIndex(...) === index`), then renders one bubble per
    message with content. */
module MessageList {
  import opened Base
  import opened Types

  /** First filter: null entries and messages without an id are dropped. */
  function Valid(raw: seq<Option<Message>>): (r: seq<Message>)
    ensures |r| <= |raw|
    ensures forall k :: 0 <= k < |r| ==> HasId(r[k])
  {
    if |raw| == 0 then []
    else if raw[0].Some? && HasId(raw[0].value) then [raw[0].value] + Valid(raw[1..])
    else Valid(raw[1..])
  }

  /** `array.findIndex(msg => msg.id === id)`: the first position holding that
      id, or -1 when there is none. */
  function IndexOfId(a: seq<Message>, id: string): (k: int)
    ensures -1 <= k < |a|
    ensures 0 <= k ==> a[k].id == id
    ensures forall j :: 0 <= j < |a| && (k == -1 || j < k) ==> a[j].id != id
  {
    if |a| == 0 then -1
    else if a[0].id == id then 0
    else
      var k := IndexOfId(a[1..], id);
      if k == -1 then -1 else k + 1
  }

  /** Second filter, from position `i` on: an element stays when the first
      position holding its id is its own position. */
  function KeepFirstFrom(a: seq<Message>, i: nat): seq<Message>
    requires i <= |a|
    decreases |a| - i
  {
    if i == |a| then []
    else (if IndexOfId(a, a[i].id) == i then [a[i]] else []) + KeepFirstFrom(a, i + 1)
  }

  /** The messages that get a bubble, in display order. */
  function Visible(raw: seq<Option<Message>>): seq<Message> {
    KeepFirstFrom(Valid(raw), 0)
  }

  /** Reference de-duplication, independent of positions: one left-to-right
      pass that remembers the ids already shown. */
  function FirstSeen(a: seq<Message>, seen: set<string>): (r: seq<Message>)
    ensures |r| <= |a|
    ensures forall k :: 0 <= k < |r| ==> r[k].id !in seen
  {
    if |a| == 0 then []
    else if a[0].id in seen then FirstSeen(a[1..], seen)
    else [a[0]] + FirstSeen(a[1..], seen + {a[0].id})
  }

  // ---------------------------------------------------------------------
  // Facts about the first filter

  lemma {:induction false} ValidMembership(raw: seq<Option<Message>>)
    ensures forall m :: m in Valid(raw) <==> Some(m) in raw && HasId(m)
  {
    if |raw| > 0 {
      ValidMembership(raw[1..]);
      assert raw == [raw[0]] + raw[1..];
    }
  }

  lemma {:induction false} ValidIsSubsequence(raw: seq<Option<Message>>)
    ensures IsSubsequence(Lift(Valid(raw)), raw)
  {
    if |raw| > 0 {
      ValidIsSubsequence(raw[1..]);
      var r := Valid(raw);
      if raw[0].Some? && HasId(raw[0].value) {
        assert Lift(r)[1..] == Lift(Valid(raw[1..]));
      }
    }
  }

  lemma {:induction false} ValidOfLift(ms: seq<Message>)
    requires forall k :: 0 <= k < |ms| ==> HasId(ms[k])
    ensures Valid(Lift(ms)) == ms
  {
    if |ms| > 0 {
      ValidOfLift(ms[1..]);
      assert Lift(ms)[1..] == Lift(ms[1..]);
      assert ms == [ms[0]] + ms[1..];
    }
  }

  // ---------------------------------------------------------------------
  // Facts about the reference de-duplication

  lemma IdsCons(a: seq<Message>)
    requires |a| > 0
    ensures Ids(a) == {a[0].id} + Ids(a[1..])
  {
    forall x | x in Ids(a) ensures x in {a[0].id} + Ids(a[1..]) {
      var k :| 0 <= k < |a| && a[k].id == x;
      if k > 0 { assert a[1..][k - 1].id == x; }
    }
    forall x | x in Ids(a[1..]) ensures x in Ids(a) {
      var k :| 0 <= k < |a[1..]| && a[1..][k].id == x;
      assert a[k + 1].id == x;
    }
  }

  lemma {:induction false} FirstSeenDistinct(a: seq<Message>, seen: set<string>)
    ensures DistinctIds(FirstSeen(a, seen))
  {
    if |a| > 0 {
      if a[0].id in seen {
        FirstSeenDistinct(a[1..], seen);
      } else {
        var rest := FirstSeen(a[1..], seen + {a[0].id});
        FirstSeenDistinct(a[1..], seen + {a[0].id});
        var r := [a[0]] + rest;
        forall i, j | 0 <= i < j < |r| ensures r[i].id != r[j].id {
          assert r[j] == rest[j - 1];
          if i > 0 { assert r[i] == rest[i - 1]; }
        }
      }
    }
  }

  lemma {:induction false} FirstSeenIds(a: seq<Message>, seen: set<string>)
    ensures Ids(FirstSeen(a, seen)) == Ids(a) - seen
  {
    if |a| > 0 {
      IdsCons(a);
      if a[0].id in seen {
        FirstSeenIds(a[1..], seen);
      } else {
        var rest := FirstSeen(a[1..], seen + {a[0].id});
        FirstSeenIds(a[1..], seen + {a[0].id});
        var r := [a[0]] + rest;
        IdsCons(r);
        assert r[1..] == rest;
      }
    }
  }

  lemma {:induction false} FirstSeenIsSubsequence(a: seq<Message>, seen: set<string>)
    ensures IsSubsequence(FirstSeen(a, seen), a)
  {
    if |a| > 0 {
      if a[0].id in seen {
        FirstSeenIsSubsequence(a[1..], seen);
      } else {
        FirstSeenIsSubsequence(a[1..], seen + {a[0].id});
        assert ([a[0]] + FirstSeen(a[1..], seen + {a[0].id}))[1..] == FirstSeen(a[1..], seen + {a[0].id});
      }
    }
  }

  /** Every message of `r` is the first one in `a` carrying its id. */
  predicate FirstOccurrences(r: seq<Message>, a: seq<Message>) {
    forall k :: 0 <= k < |r| ==> 0 <= IndexOfId(a, r[k].id) && a[IndexOfId(a, r[k].id)] == r[k]
  }

  lemma {:induction false} FirstSeenKeepsFirst(a: seq<Message>, seen: set<string>)
    ensures FirstOccurrences(FirstSeen(a, seen), a)
  {
    if |a| > 0 {
      var r := FirstSeen(a, seen);
      var seen' := if a[0].id in seen then seen else seen + {a[0].id};
      var rest := FirstSeen(a[1..], seen');
      FirstSeenKeepsFirst(a[1..], seen');
      forall k | 0 <= k < |r| ensures 0 <= IndexOfId(a, r[k].id) && a[IndexOfId(a, r[k].id)] == r[k] {
        if a[0].id in seen || k > 0 {
          var idx := if a[0].id in seen then k else k - 1;
          var m := rest[idx];
          assert r[k] == m && m.id != a[0].id;
          assert 0 <= idx < |rest|;
          var j := IndexOfId(a[1..], m.id);
          assert 0 <= j && a[1..][j] == m;
          assert IndexOfId(a, m.id) == j + 1;
          assert a[j + 1] == a[1..][j];
        }
      }
    }
  }

  /** On a list without repeated ids, none of which was seen, nothing is dropped. */
  lemma {:induction false} FirstSeenOfDistinct(a: seq<Message>, seen: set<string>)
    requires DistinctIds(a)
    requires forall k :: 0 <= k < |a| ==> a[k].id !in seen
    ensures FirstSeen(a, seen) == a
  {
    if |a| > 0 {
      FirstSeenOfDistinct(a[1..], seen + {a[0].id});
      assert a == [a[0]] + a[1..];
    }
  }

  // ---------------------------------------------------------------------
  // The position-based filter agrees with the reference

  lemma IdsSnoc(a: seq<Message>, i: nat)
    requires i < |a|
    ensures Ids(a[..i + 1]) == Ids(a[..i]) + {a[i].id}
  {
    assert a[..i + 1][i] == a[i];
    forall x | x in Ids(a[..i + 1]) ensures x in Ids(a[..i]) + {a[i].id} {
      var k :| 0 <= k < i + 1 && a[..i + 1][k].id == x;
      if k < i { assert a[..i][k].id == x; }
    }
    forall x | x in Ids(a[..i]) ensures x in Ids(a[..i + 1]) {
      var k :| 0 <= k < i && a[..i][k].id == x;
      assert a[..i + 1][k].id == x;
    }
  }

  lemma FirstPositionIff(a: seq<Message>, i: nat)
    requires i < |a|
    ensures IndexOfId(a, a[i].id) == i <==> a[i].id !in Ids(a[..i])
  {
    var k := IndexOfId(a, a[i].id);
    if a[i].id in Ids(a[..i]) {
      var j :| 0 <= j < i && a[..i][j].id == a[i].id;
      assert a[j].id == a[i].id;
    } else {
      forall j | 0 <= j < i ensures a[j].id != a[i].id {
        assert a[j] == a[..i][j];
      }
    }
  }

  lemma {:induction false} KeepFirstIsFirstSeen(a: seq<Message>, i: nat)
    requires i <= |a|
    ensures KeepFirstFrom(a, i) == FirstSeen(a[i..], Ids(a[..i]))
    decreases |a| - i
  {
    if i < |a| {
      KeepFirstIsFirstSeen(a, i + 1);
      IdsSnoc(a, i);
      FirstPositionIff(a, i);
      var seen := Ids(a[..i]);
      var tail := FirstSeen(a[i + 1..], Ids(a[..i + 1]));
      var rest := a[i..];
      assert rest[0] == a[i] && rest[1..] == a[i + 1..];
      if a[i].id in seen {
        assert Ids(a[..i + 1]) == seen;
        assert FirstSeen(rest, seen) == FirstSeen(a[i + 1..], seen);
      } else {
        assert seen + {a[i].id} == Ids(a[..i + 1]);
        assert FirstSeen(rest, seen) == [a[i]] + tail;
      }
    }
  }

  // ---------------------------------------------------------------------
  // What the list shows

  lemma SubsequenceTransitive<T>(a: seq<T>, b: seq<T>, c: seq<T>)
    requires IsSubsequence(a, b) && IsSubsequence(b, c)
    ensures IsSubsequence(a, c)
    decreases |c|
  {
    if |a| > 0 {
      if b[0] == c[0] && IsSubsequence(b[1..], c[1..]) {
        if a[0] == b[0] && IsSubsequence(a[1..], b[1..]) {
          SubsequenceTransitive(a[1..], b[1..], c[1..]);
        } else {
          SubsequenceTransitive(a, b[1..], c[1..]);
        }
      } else {
        SubsequenceTransitive(a, b, c[1..]);
      }
    }
  }

  lemma {:induction false} LiftSubsequence(a: seq<Message>, b: seq<Message>)
    requires IsSubsequence(a, b)
    ensures IsSubsequence(Lift(a), Lift(b))
    decreases |b|
  {
    if |a| > 0 {
      assert Lift(b)[1..] == Lift(b[1..]);
      if a[0] == b[0] && IsSubsequence(a[1..], b[1..]) {
        LiftSubsequence(a[1..], b[1..]);
        assert Lift(a)[1..] == Lift(a[1..]);
      } else {
        LiftSubsequence(a, b[1..]);
      }
    }
  }

  /** The displayed list: every message has an id; no id is shown twice; every
      id some valid input message carries is shown; the message shown for an
      id is the first valid one with it; and the order is the input order. */
  lemma VisibleSpec(raw: seq<Option<Message>>)
    ensures var r := Visible(raw);
      && (forall k :: 0 <= k < |r| ==> HasId(r[k]))
      && DistinctIds(r)
      && Ids(r) == Ids(Valid(raw))
      && FirstOccurrences(r, Valid(raw))
      && IsSubsequence(Lift(r), raw)
  {
    var v := Valid(raw);
    KeepFirstIsFirstSeen(v, 0);
    assert v[0..] == v && v[..0] == [];
    assert Ids([]) == {};
    var r := FirstSeen(v, {});
    FirstSeenDistinct(v, {});
    FirstSeenIds(v, {});
    FirstSeenKeepsFirst(v, {});
    FirstSeenIsSubsequence(v, {});
    LiftSubsequence(r, v);
    ValidIsSubsequence(raw);
    SubsequenceTransitive(Lift(r), Lift(v), raw);
    forall k | 0 <= k < |r| ensures HasId(r[k]) {
      assert r[k] in v;
    }
  }

  /** Filtering what is already displayed changes nothing. */
  lemma VisibleIdempotent(raw: seq<Option<Message>>)
    ensures Visible(Lift(Visible(raw))) == Visible(raw)
  {
    var r := Visible(raw);
    VisibleSpec(raw);
    ValidOfLift(r);
    KeepFirstIsFirstSeen(r, 0);
    assert r[0..] == r && r[..0] == [];
    assert Ids([]) == {};
    FirstSeenOfDistinct(r, {});
  }

  // ---------------------------------------------------------------------
  // Rendering

  datatype Alignment = AlignStart | AlignEnd

  datatype Bubble = Bubble(alignment: Alignment, content: string, isBot: bool)

  /** Either the "Start a conversation" placeholder, or the bubbles followed
      by the typing indicator when `typing` holds. */
  datatype ListView = Placeholder | Thread(bubbles: seq<Bubble>, typing: bool)

  /** `MessageBubble`: nothing for a message without content; bot messages
      on the start side, the user's on the end side. */
  function RenderBubble(m: Message): (b: Option<Bubble>)
    ensures b.None? <==> m.content == ""
    ensures b.Some? ==> b.value.content == m.content && b.value.isBot == m.isBot
    ensures b.Some? ==> (b.value.alignment == AlignStart <==> m.isBot)
  {
    if m.content == "" then None
    else Some(Bubble(if m.isBot then AlignStart else AlignEnd, m.content, m.isBot))
  }

  /** The bubbles for a list of messages, skipping those that render nothing. */
  function Bubbles(ms: seq<Message>): (bs: seq<Bubble>)
    ensures |bs| <= |ms|
    ensures forall b :: b in bs ==> b.content != ""
  {
    if |ms| == 0 then []
    else
      match RenderBubble(ms[0])
      case Some(b) => [b] + Bubbles(ms[1..])
      case None => Bubbles(ms[1..])
  }

  /** The view. The placeholder test looks at the raw array, before any
      filtering, so an array of only invalid entries gives an empty thread. */
  function Render(raw: seq<Option<Message>>, isLoading: bool): (v: ListView)
    ensures v.Placeholder? <==> |raw| == 0
    ensures v.Thread? ==> |v.bubbles| <= |Visible(raw)|
    ensures v.Thread? && v.typing <==> |raw| > 0 && isLoading
  {
    if |raw| == 0 then Placeholder
    else Thread(Bubbles(Visible(raw)), isLoading)
  }

  /** Each displayed bubble comes from a distinct displayed message with
      content, in order. */
  lemma {:induction false} BubblesExact(ms: seq<Message>)
    ensures forall b :: b in Bubbles(ms) <==> exists m :: m in ms && RenderBubble(m) == Some(b)
  {
    if |ms| > 0 {
      BubblesExact(ms[1..]);
      assert ms == [ms[0]] + ms[1..];
    }
  }

  /** A list holding only null or id-less entries shows neither the
      placeholder nor any bubble. */
  lemma InvalidOnlyShowsEmptyThread(raw: seq<Option<Message>>, isLoading: bool)
    requires |raw| > 0
    requires forall k :: 0 <= k < |raw| ==> raw[k].None? || !HasId(raw[k].value)
    ensures Render(raw, isLoading) == Thread([], isLoading)
  {
    ValidMembership(raw);
  }
}
