/** In a mesh, the end that dials never has a session ended by another session's farewell. */
module MeshFarewells {
  import opened Wire
  import opened Manager
  import opened ManagerRuns
  import opened ClosedRuns
  import opened Farewells
  import opened Mesh

  ghost predicate Peaceful(m: Manager.State, k: Key) {
    OncePerSession(m.inbox) && Calm(m, k) && NoneAborted(m, k)
  }

  /** Nobody but a larger key dials, and an outgoing connection only meets its own Connecting entry. */
  lemma DialerIsUndisturbed(w: World, lists: map<Key, set<Key>>, a: Key, b: Key, mv: Move)
    requires Mesh.Inv(w, lists) && a in lists && b in lists && b < a
    requires Enabled(w.nodes[a], mv) && Closed(mv)
    ensures !Displaces(w.nodes[a], mv, b)
  {
    assert NodeOk(w, a, lists[a]);
    if Displaces(w.nodes[a], mv, b) {
      OnlyArrivalsDisplace(w.nodes[a], lists[a], mv, b);
      IncomingFromLarger(w, lists, a, 0);
    }
  }

  lemma MoveKeepsPeace(m: Manager.State, mv: Move, k: Key)
    requires ManagerRuns.Inv(m) && Peaceful(m, k) && Enabled(m, mv) && !Displaces(m, mv, k)
    ensures Peaceful(Do(m, mv), k)
  {
    MoveKeepsOnce(m, mv);
    CalmExact(m, mv, k);
    if mv.TakeEvent? || mv.TakeAction? {
      TakeKeepsUnaborted(m, mv, k);
    } else {
      OthersAbortNothing(m, mv, k);
    }
  }

  lemma {:induction false} RunKeepsPeace(w: World, lists: map<Key, set<Key>>, steps: seq<Step>, a: Key, b: Key)
    requires IsBooted(w, lists) && Run(w, steps).Some? && a in lists && b in lists && b < a
    ensures a in Run(w, steps).value.nodes && Peaceful(Run(w, steps).value.nodes[a], b)
  {
    if steps != [] {
      var n := |steps| - 1;
      var before := Run(w, steps[..n]).value;
      RunKeepsPeace(w, lists, steps[..n], a, b);
      Mesh.RunKeepsInv(w, lists, steps[..n]);
      StepIsMove(before, steps[n]);
      assert NodeOk(before, a, lists[a]);
      if Mover(before, steps[n]).Some? && Mover(before, steps[n]).value.0 == a {
        var mv := Mover(before, steps[n]).value.1;
        DialerIsUndisturbed(before, lists, a, b, mv);
        MoveKeepsPeace(before.nodes[a], mv, b);
      }
    }
  }

  /** In every mesh run, at a node with the larger key of a pair: every queued farewell of the other node comes from the
      very session its entry names, which has returned; at most one is queued; and no session with it is ever aborted. */
  lemma DialerFarewellsAreOwn(w: World, lists: map<Key, set<Key>>, steps: seq<Step>, a: Key, b: Key)
    requires IsBooted(w, lists) && Run(w, steps).Some? && a in lists && b in lists && b < a
    ensures a in Run(w, steps).value.nodes
    ensures var m := Run(w, steps).value.nodes[a]; OwnFarewells(m, b) && NoneAborted(m, b)
  {
    RunKeepsPeace(w, lists, steps, a, b);
    Mesh.RunKeepsInv(w, lists, steps);
    var r := Run(w, steps).value;
    assert NodeOk(r, a, lists[a]);
    CalmMeansOwn(r.nodes[a], b);
  }
}
