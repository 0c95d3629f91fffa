/** The lazy MCP connector of the agent loop (`_connect_mcp` and `close_mcp`
    in nanobot/agent/loop.py) as a state machine over its three fields. */
module Mcp {

  /** `_mcp_connected`, `_mcp_connecting`, and whether `_mcp_stack` holds an
      exit stack (it is truthy exactly when it is not `None`). */
  datatype McpState = McpState(connected: bool, connecting: bool, stack: bool)

  const Initial: McpState := McpState(false, false, false)

  /** How the awaited part of a connect attempt ended: all servers connected,
      an `Exception` (caught and logged, with the cleanup `aclose()` ending
      normally or with an `Exception`), or a `BaseException` outside
      `Exception` such as a cancellation, which the `except` clause does not
      catch. `Cancelled` also covers a cancellation raised by the cleanup
      `aclose()` after a caught `Exception`: that path skips
      `_mcp_stack = None` too, so it ends in the same state. */
  datatype Attempt = Connected | Failed | Cancelled

  /** How `aclose()` ended in `close_mcp`: normally, with one of the two
      exception types swallowed there, or with any other exception, which
      propagates. */
  datatype CloseOutcome = Closed | Benign | Other

  /** Lines 119-120: an attempt starts only when not connected, not already
      connecting, and some server is configured. */
  predicate Eligible(st: McpState, hasServers: bool) {
    !st.connected && !st.connecting && hasServers
  }

  /** The synchronous prefix of `_connect_mcp`, up to the first `await`: the
      attempt marks itself as connecting and creates the exit stack. */
  function BeginConnect(st: McpState, hasServers: bool): (r: McpState)
    ensures Eligible(st, hasServers) ==> r.connecting && r.stack && !r.connected
    ensures !Eligible(st, hasServers) ==> r == st
  {
    if Eligible(st, hasServers) then McpState(false, true, true) else st
  }

  /** The rest of an attempt, after its awaits: success sets the flag, a
      caught failure closes and drops the stack, and in every case the
      `finally` clears `_mcp_connecting`. */
  function FinishConnect(st: McpState, outcome: Attempt): (r: McpState)
    ensures !r.connecting
    ensures r.connected <==> st.connected || outcome == Connected
    ensures outcome == Connected ==> r.stack == st.stack
    ensures outcome == Failed ==> !r.stack
    ensures outcome == Cancelled ==> r.stack == st.stack
  {
    match outcome
    case Connected => st.(connected := true, connecting := false)
    case Failed => st.(connecting := false, stack := false)
    case Cancelled => st.(connecting := false)
  }

  /** `_connect_mcp()` run to completion without another coroutine in
      between. */
  function ConnectMcp(st: McpState, hasServers: bool, outcome: Attempt): (r: McpState)
  {
    if Eligible(st, hasServers) then FinishConnect(BeginConnect(st, hasServers), outcome) else st
  }

  /** `close_mcp()`: with a stack, close it; the stack is dropped unless
      `aclose()` raised an exception other than the two swallowed ones. */
  function CloseMcp(st: McpState, outcome: CloseOutcome): (r: McpState)
    ensures r.connected == st.connected && r.connecting == st.connecting
  {
    if !st.stack then st
    else if outcome == Other then st
    else st.(stack := false)
  }

  /** Connecting is a no-op when connected, while another attempt is in
      flight, and with no servers configured; an attempt that does run
      leaves `_mcp_connecting` cleared whatever happened, sets
      `_mcp_connected` only on success, and drops the stack on a caught
      failure. */
  lemma ConnectSteps(st: McpState, hasServers: bool, outcome: Attempt)
    ensures !Eligible(st, hasServers) ==> ConnectMcp(st, hasServers, outcome) == st
    ensures Eligible(st, hasServers) ==>
      var r := ConnectMcp(st, hasServers, outcome);
      && !r.connecting
      && (r.connected <==> outcome == Connected)
      && (outcome == Failed ==> !r.stack)
      && (outcome != Failed ==> r.stack)
  {
  }

  /** The `_mcp_connecting` flag keeps a second message from starting an
      attempt while the first is suspended at an `await`. */
  lemma ReentryIsNoOp(st: McpState, hasServers: bool)
    ensures BeginConnect(BeginConnect(st, hasServers), hasServers) == BeginConnect(st, hasServers)
  {
  }

  /** After a caught failure the next message tries again from scratch. */
  lemma FailureRetries(st: McpState, outcome: Attempt)
    requires Eligible(st, true)
    ensures Eligible(ConnectMcp(st, true, Failed), true)
    ensures ConnectMcp(ConnectMcp(st, true, Failed), true, outcome) == ConnectMcp(st, true, outcome)
  {
  }

  /** A cancelled attempt is not caught by `except Exception`: the exit
      stack stays set and the connector is left unconnected. */
  lemma CancelledKeepsStack(st: McpState)
    requires Eligible(st, true)
    ensures ConnectMcp(st, true, Cancelled) == McpState(false, false, true)
  {
  }

  /** The state of the connector after one message each, in order. */
  function ConnectAll(st: McpState, hasServers: bool, outcomes: seq<Attempt>): (r: McpState)
    decreases |outcomes|
  {
    if outcomes == [] then st
    else ConnectAll(ConnectMcp(st, hasServers, outcomes[0]), hasServers, outcomes[1..])
  }

  /** How many attempts over a sequence of messages connected successfully. */
  function Successes(st: McpState, hasServers: bool, outcomes: seq<Attempt>): (n: nat)
    decreases |outcomes|
  {
    if outcomes == [] then 0
    else
      (if Eligible(st, hasServers) && outcomes[0] == Connected then 1 else 0)
      + Successes(ConnectMcp(st, hasServers, outcomes[0]), hasServers, outcomes[1..])
  }

  /** Once connected, the connector stays connected and attempts nothing. */
  lemma {:induction false} ConnectedIsFinal(st: McpState, hasServers: bool, outcomes: seq<Attempt>)
    requires st.connected
    ensures ConnectAll(st, hasServers, outcomes) == st
    ensures Successes(st, hasServers, outcomes) == 0
    decreases |outcomes|
  {
    if outcomes != [] {
      ConnectedIsFinal(st, hasServers, outcomes[1..]);
    }
  }

  /** However many messages arrive, at most one attempt succeeds, and
      connecting is never left set by a finished attempt. */
  lemma {:induction false} AtMostOneSuccess(st: McpState, hasServers: bool, outcomes: seq<Attempt>)
    requires !st.connecting
    ensures Successes(st, hasServers, outcomes) <= 1
    ensures !ConnectAll(st, hasServers, outcomes).connecting
    ensures Successes(st, hasServers, outcomes) == 1 ==> ConnectAll(st, hasServers, outcomes).connected
    decreases |outcomes|
  {
    if outcomes != [] {
      var next := ConnectMcp(st, hasServers, outcomes[0]);
      if Eligible(st, hasServers) && outcomes[0] == Connected {
        ConnectedIsFinal(next, hasServers, outcomes[1..]);
      } else {
        AtMostOneSuccess(next, hasServers, outcomes[1..]);
      }
    }
  }

  /** `close_mcp` drops the stack unless teardown raised an unexpected
      exception, and closing twice is the same as closing once. */
  lemma CloseSteps(st: McpState, outcome: CloseOutcome, again: CloseOutcome)
    ensures outcome != Other ==> !CloseMcp(st, outcome).stack
    ensures outcome == Other ==> CloseMcp(st, outcome) == st
    ensures outcome != Other ==> CloseMcp(CloseMcp(st, outcome), again) == CloseMcp(st, outcome)
  {
  }

  /** `close_mcp` does not reset `_mcp_connected`, so a connector closed
      after connecting is never reconnected by later messages. */
  lemma ClosedIsNotReconnected(st: McpState, close: CloseOutcome, hasServers: bool, outcomes: seq<Attempt>)
    requires st.connected
    ensures ConnectAll(CloseMcp(st, close), hasServers, outcomes) == CloseMcp(st, close)
  {
    ConnectedIsFinal(CloseMcp(st, close), hasServers, outcomes);
  }

  /** No reachable state is connected and connecting at once. */
  predicate Consistent(st: McpState) {
    st.connecting ==> !st.connected
  }

  lemma StepsKeepConsistent(st: McpState, hasServers: bool, outcome: Attempt, close: CloseOutcome)
    requires Consistent(st)
    ensures Consistent(BeginConnect(st, hasServers))
    ensures Consistent(ConnectMcp(st, hasServers, outcome))
    ensures Consistent(CloseMcp(st, close))
    ensures st.connecting && !st.connected ==> Consistent(FinishConnect(st, outcome))
  {
  }
}
