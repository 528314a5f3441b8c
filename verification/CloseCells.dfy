/** One connection has one close cell. The endpoint, the accept and open futures, and
    the handles of each stream are separate step systems, each with a view of that
    cell; here the views are put over the one cell that the endpoint's run writes. */
module CloseCells {
  import opened Types
  import L = Lifecycle
  import LT = LifecycleTheorems
  import LP = LifecycleProof
  import S = Streams
  import ST = StreamsTheorems
  import SP = StreamsProof
  import P = StreamPath

  type Reason = Option<ConnectionError>

  /** Moment k of the other run happens at moment `at[k]` of the endpoint's run, where
      it sees what is in the cell of connection c. */
  ghost predicate Shares(endpoint: seq<L.State>, c: L.ConnId, views: seq<Reason>, at: seq<nat>) {
    && |at| == |views|
    && (forall k | 0 <= k < |at| :: at[k] < |endpoint| && views[k] == LT.CloseReasonOf(endpoint[at[k]], c))
  }

  /** The views of the two kinds of runs. */
  function StreamsView(states: seq<S.State>): seq<Reason> {
    seq(|states|, k requires 0 <= k < |states| => states[k].closed.value)
  }

  /** `sending`: the stream's sending half is on this connection, else its receiving
      half is. */
  function PathView(states: seq<P.State>, sending: bool): seq<Reason> {
    seq(|states|, k requires 0 <= k < |states| => if sending then states[k].w.closed else states[k].r.closed)
  }

  /** The cell at the end of the run holds whatever it held before. */
  lemma FinalReason(endpoint: seq<L.State>, acts: seq<L.Action>, c: L.ConnId, i: nat)
    requires L.Run(endpoint, acts) && i < |endpoint| && LT.CloseReasonOf(endpoint[i], c).Some?
    ensures LT.CloseReasonOf(endpoint[|acts|], c) == LT.CloseReasonOf(endpoint[i], c)
  {
    LT.CloseReasonStays(endpoint, acts, i, |acts|, c);
  }

  /** For one connection, in any interleaving of the endpoint, its accept and open
      futures and the handles of any of its streams, there is one reason: what
      closed(), close_reason or a Connecting future was told (e), what an accept
      caller or an open future was told (f), and what a wait_readable or
      wait_writable finds in the cell (g), at whatever moments. */
  lemma AllCloseAnswersAgree(
    endpoint: seq<L.State>, acts: seq<L.Action>, c: L.ConnId,
    streams: seq<S.State>, streamActs: seq<S.Action>, streamsAt: seq<nat>,
    path: seq<P.State>, sending: bool, pathAt: seq<nat>)
    requires L.Run(endpoint, acts) && S.Run(streams, streamActs)
    requires Shares(endpoint, c, StreamsView(streams), streamsAt)
    requires Shares(endpoint, c, PathView(path, sending), pathAt)
    ensures var reason := LT.CloseReasonOf(endpoint[|acts|], c);
            && (forall i, e | 0 <= i < |endpoint| && LT.ToldClosed(endpoint[i], c, e) :: reason == Some(e))
            && (forall j, f | 0 <= j < |streams| && ST.ToldClosed(streams[j], f) :: reason == Some(f))
            && (forall k, g | 0 <= k < |path| && PathView(path, sending)[k] == Some(g) :: reason == Some(g))
  {
    var reason := LT.CloseReasonOf(endpoint[|acts|], c);
    forall i, e | 0 <= i < |endpoint| && LT.ToldClosed(endpoint[i], c, e) ensures reason == Some(e) {
      LP.RunKeeps(endpoint, acts, i);
      LT.ToldIsPublished(endpoint[i], c, e);
      FinalReason(endpoint, acts, c, i);
    }
    forall j, f | 0 <= j < |streams| && ST.ToldClosed(streams[j], f) ensures reason == Some(f) {
      SP.RunKeeps(streams, streamActs, j);
      ST.ToldIsPublished(streams[j], f);
      assert StreamsView(streams)[j] == Some(f);
      FinalReason(endpoint, acts, c, streamsAt[j]);
    }
    forall k, g | 0 <= k < |path| && PathView(path, sending)[k] == Some(g) ensures reason == Some(g) {
      FinalReason(endpoint, acts, c, pathAt[k]);
    }
  }
}
