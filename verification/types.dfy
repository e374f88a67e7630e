/** The records the client exchanges with the GraphQL backend
    (src/types/index.ts). A missing or empty `id` is the empty string: every
    place the client reads an id tests it for truthiness, which treats
    `undefined`, `null` and `""` alike. */
module Types {
  import opened Base

  datatype Message = Message(
    id: string,
    content: string,
    chatId: Option<string>,
    userId: Option<string>,
    isBot: bool,
    createdAt: string)

  datatype Chat = Chat(
    id: string,
    title: string,
    createdAt: string,
    updatedAt: string,
    userId: string,
    messages: Option<seq<Message>>)

  /** The signed-in user as the auth provider reports it. */
  datatype User = User(
    id: string,
    email: string,
    displayName: Option<string>,
    emailVerified: bool)

  predicate HasId(m: Message) {
    m.id != ""
  }

  /** The ids occurring in a list of messages. */
  function Ids(ms: seq<Message>): set<string> {
    set k | 0 <= k < |ms| :: ms[k].id
  }

  /** No id occurs twice. */
  predicate DistinctIds(ms: seq<Message>) {
    forall i, j :: 0 <= i < j < |ms| ==> ms[i].id != ms[j].id
  }

  /** `messages.some(msg => msg && msg.id && msg.id === id)`. */
  predicate IdPresent(ms: seq<Message>, id: string) {
    exists k :: 0 <= k < |ms| && HasId(ms[k]) && ms[k].id == id
  }

  /** A list of messages seen as the array of possibly-null entries a view receives. */
  function Lift(ms: seq<Message>): (r: seq<Option<Message>>)
    ensures |r| == |ms| && forall k :: 0 <= k < |ms| ==> r[k] == Some(ms[k])
  {
    seq(|ms|, k requires 0 <= k < |ms| => Some(ms[k]))
  }

  /** `a` is obtained from `b` by deleting elements. */
  predicate IsSubsequence<T(==)>(a: seq<T>, b: seq<T>)
    decreases |b|
  {
    if |a| == 0 then true
    else if |b| == 0 then false
    else (a[0] == b[0] && IsSubsequence(a[1..], b[1..])) || IsSubsequence(a, b[1..])
  }

  /** How many messages of `ms` carry `id`. */
  function Occurrences(ms: seq<Message>, id: string): nat {
    if |ms| == 0 then 0
    else (if ms[0].id == id then 1 else 0) + Occurrences(ms[1..], id)
  }

  lemma {:induction false} OccurrencesAppend(a: seq<Message>, b: seq<Message>, id: string)
    ensures Occurrences(a + b, id) == Occurrences(a, id) + Occurrences(b, id)
  {
    if |a| > 0 {
      OccurrencesAppend(a[1..], b, id);
      assert (a + b)[1..] == a[1..] + b;
    } else {
      assert a + b == b;
    }
  }

  /** In a list without repeated ids, an id that occurs occurs exactly once. */
  lemma {:induction false} OccurrencesOfDistinct(ms: seq<Message>, id: string)
    requires DistinctIds(ms)
    ensures Occurrences(ms, id) == (if id in Ids(ms) then 1 else 0)
  {
    if |ms| > 0 {
      OccurrencesOfDistinct(ms[1..], id);
      assert Ids(ms) == {ms[0].id} + Ids(ms[1..]) by {
        forall x | x in Ids(ms) ensures x in {ms[0].id} + Ids(ms[1..]) {
          var k :| 0 <= k < |ms| && ms[k].id == x;
          if k > 0 { assert ms[1..][k - 1].id == x; }
        }
        forall x | x in Ids(ms[1..]) ensures x in Ids(ms) {
          var k :| 0 <= k < |ms[1..]| && ms[1..][k].id == x;
          assert ms[k + 1].id == x;
        }
      }
      if ms[0].id == id {
        forall k | 0 <= k < |ms[1..]| ensures ms[1..][k].id != id {
          assert ms[1..][k] == ms[k + 1];
        }
      }
    }
  }
}
