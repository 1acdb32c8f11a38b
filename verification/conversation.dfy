/** The conversation store shared through context: a message list, a
    loading flag and the country the conversation is about. */
module Conversation {
  import opened Wrappers

  datatype Role = System | User | Assistant

  /** A message; `name` is the optional speaker name. */
  datatype Message = Message(role: Role, content: string, name: Option<string>)

  datatype Store = Store(messages: seq<Message>, isLoading: bool, currentCountry: Option<string>)

  /** The provider's initial state. */
  const Initial := Store([], false, None)

  /** `addMessage`: the message goes at the end; nothing else changes. */
  function AddMessage(st: Store, m: Message): (r: Store)
    ensures |r.messages| == |st.messages| + 1
    ensures r.messages[..|st.messages|] == st.messages && r.messages[|st.messages|] == m
    ensures r.isLoading == st.isLoading && r.currentCountry == st.currentCountry
  {
    st.(messages := st.messages + [m])
  }

  /** `resetConversation`: back to the initial state, whatever came before. */
  function Reset(st: Store): (r: Store)
    ensures r.messages == [] && !r.isLoading && r.currentCountry.None?
  {
    Initial
  }

  /** `setIsLoading` changes only the flag. */
  function SetIsLoading(st: Store, loading: bool): (r: Store)
    ensures r.isLoading == loading
    ensures r.messages == st.messages && r.currentCountry == st.currentCountry
  {
    st.(isLoading := loading)
  }

  /** `setCurrentCountry` changes only the country. */
  function SetCurrentCountry(st: Store, country: Option<string>): (r: Store)
    ensures r.currentCountry == country
    ensures r.messages == st.messages && r.isLoading == st.isLoading
  {
    st.(currentCountry := country)
  }

  lemma ResetIsIdempotent(st: Store)
    ensures Reset(Reset(st)) == Reset(st) == Initial
  {
  }

  datatype Op = Add(m: Message) | SetLoading(b: bool) | SetCountry(c: Option<string>) | ResetAll

  function ApplyOp(st: Store, op: Op): Store {
    match op
    case Add(m) => AddMessage(st, m)
    case SetLoading(b) => SetIsLoading(st, b)
    case SetCountry(c) => SetCurrentCountry(st, c)
    case ResetAll => Reset(st)
  }

  function Replay(st: Store, ops: seq<Op>): Store
    decreases |ops|
  {
    if ops == [] then st else Replay(ApplyOp(st, ops[0]), ops[1..])
  }

  /** The messages added by a run of operations, in order. */
  function Added(ops: seq<Op>): seq<Message>
    decreases |ops|
  {
    if ops == [] then [] else (if ops[0].Add? then [ops[0].m] else []) + Added(ops[1..])
  }

  /** Without a reset, the history after a run is the history before it
      followed by exactly the messages the run added: existing messages are
      never modified or removed. */
  lemma {:induction false} ReplayWithoutResetAppends(st: Store, ops: seq<Op>)
    requires forall i :: 0 <= i < |ops| ==> !ops[i].ResetAll?
    ensures Replay(st, ops).messages == st.messages + Added(ops)
    decreases |ops|
  {
    if ops != [] {
      var next := ApplyOp(st, ops[0]);
      var head := if ops[0].Add? then [ops[0].m] else [];
      assert next.messages == st.messages + head;
      assert Added(ops) == head + Added(ops[1..]);
      ReplayWithoutResetAppends(next, ops[1..]);
      assert Replay(st, ops) == Replay(next, ops[1..]);
      assert st.messages + head + Added(ops[1..]) == st.messages + (head + Added(ops[1..]));
    }
  }

  /** After a run that ends in a reset, the store is the initial one. */
  lemma {:induction false} ReplayEndingInResetIsInitial(st: Store, ops: seq<Op>)
    requires |ops| > 0 && ops[|ops| - 1].ResetAll?
    ensures Replay(st, ops) == Initial
    decreases |ops|
  {
    if |ops| > 1 {
      ReplayEndingInResetIsInitial(ApplyOp(st, ops[0]), ops[1..]);
    }
  }
}
