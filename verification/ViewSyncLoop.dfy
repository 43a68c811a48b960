/** The consuming loops of go/router/viewsync.go over a `ViewMirror` object. */
module ViewSyncLoop {
  import opened Views
  import opened ViewMirrors
  import opened ViewSync

  /** A server as one call meets it: the stream it gives for a resume number, empty when the call is refused. */
  type Server = nat -> seq<Update>

  /** What the supervising loop leaves behind after a list of sessions, each resumed where the last one stopped. */
  function ConsumeAll(m: Mirror, servers: seq<Server>): Mirror {
    if servers == [] then m else
      var before := ConsumeAll(m, servers[..|servers| - 1]);
      Consume(before, servers[|servers| - 1](before.lastSeq)).0
  }

  /** After which sessions the loop waits before it reconnects: all but those that a gap ended. */
  function Delays(m: Mirror, servers: seq<Server>): seq<bool> {
    if servers == [] then [] else
      var n := |servers| - 1;
      var before := ConsumeAll(m, servers[..n]);
      Delays(m, servers[..n]) + [Consume(before, servers[n](before.lastSeq)).1.Ok?]
  }

  lemma {:induction false} ConsumePrefix(m: Mirror, us: seq<Update>, i: nat)
    requires i < |us| && Consume(m, us[..i]).1.Ok?
    ensures var (m1, _) := Consume(m, us[..i]);
      Consume(m, us[..i + 1]) == if Verdict(m1, us[i]).Gap? then (m1, Verdict(m1, us[i])) else (Apply(m1, us[i]), Ok)
    decreases i
  {
    if i == 0 {
      assert us[..1][1..] == [];
    } else {
      assert us[..i][1..] == us[1..][..i - 1] && us[..i + 1][1..] == us[1..][..i];
      ConsumePrefix(Apply(m, us[0]), us[1..], i - 1);
    }
  }

  lemma {:induction false} ConsumeStops(m: Mirror, us: seq<Update>, i: nat)
    requires i <= |us| && Consume(m, us[..i]).1.Gap?
    ensures Consume(m, us) == Consume(m, us[..i])
    decreases i
  {
    if i > 0 && Verdict(m, us[0]).Ok? {
      assert us[..i][1..] == us[1..][..i - 1];
      ConsumeStops(Apply(m, us[0]), us[1..], i - 1);
    }
  }

  /** The mirror after all of the given updates. */
  function Applied(m: Mirror, us: seq<Update>): Mirror {
    if us == [] then m else Apply(Applied(m, us[..|us| - 1]), us[|us| - 1])
  }

  /** The update is an increment that is ahead of the mirror by more than one. */
  predicate TooNew(m: Mirror, u: Update) { u.events != [] && u.number > m.lastSeq + 1 }

  /** What a session consumes: every update up to the first that is too new, which it reports, or all of them. */
  lemma {:induction false} SessionExactly(m: Mirror, us: seq<Update>) returns (n: nat)
    ensures n <= |us| && Consume(m, us).0 == Applied(m, us[..n])
    ensures forall i :: 0 <= i < n ==> !TooNew(Applied(m, us[..i]), us[i])
    ensures n < |us| ==> TooNew(Applied(m, us[..n]), us[n])
    ensures Consume(m, us).1 == if n < |us| then Gap(Applied(m, us[..n]).lastSeq + 1, us[n].number) else Ok
  {
    n := SessionFrom(m, us, 0);
    assert us[0..] == us && us[..0] == [];
  }

  lemma {:induction false} SessionFrom(m: Mirror, us: seq<Update>, from: nat) returns (n: nat)
    requires from <= |us|
    ensures from <= n <= |us| && Consume(Applied(m, us[..from]), us[from..]).0 == Applied(m, us[..n])
    ensures forall i :: from <= i < n ==> !TooNew(Applied(m, us[..i]), us[i])
    ensures n < |us| ==> TooNew(Applied(m, us[..n]), us[n])
    ensures Consume(Applied(m, us[..from]), us[from..]).1 ==
      if n < |us| then Gap(Applied(m, us[..n]).lastSeq + 1, us[n].number) else Ok
    decreases |us| - from
  {
    if from == |us| || TooNew(Applied(m, us[..from]), us[from]) {
      n := from;
    } else {
      n := SessionFrom(m, us, from + 1);
      assert us[..from + 1][..from] == us[..from] && us[from..][1..] == us[from + 1..];
    }
  }

  /** One session: subscribe from the mirror's own number and apply the stream to its end or to a gap. */
  method ViewSyncOnce(mirror: ViewMirror, server: Server) returns (err: Outcome)
    requires mirror.Valid()
    modifies mirror
    ensures mirror.Valid() && (mirror.Value(), err) == Consume(old(mirror.Value()), server(old(mirror.lastSeq)))
  {
    var stream := server(mirror.lastSeq);
    var i := 0;
    while i < |stream|
      invariant 0 <= i <= |stream| && mirror.Valid()
      invariant Consume(old(mirror.Value()), stream[..i]) == (mirror.Value(), Ok)
    {
      ConsumePrefix(old(mirror.Value()), stream, i);
      err := mirror.Apply(stream[i]);
      if err.Gap? {
        ConsumeStops(old(mirror.Value()), stream, i + 1);
        return;
      }
      i := i + 1;
    }
    assert stream[..i] == stream;
    err := Ok;
  }

  /** Session `i` starts where the sessions before it left the mirror, and is followed by a wait unless it saw a gap. */
  lemma {:induction false} DelaysExactly(m: Mirror, servers: seq<Server>, i: nat)
    requires i < |servers|
    ensures |Delays(m, servers)| == |servers|
    ensures var before := ConsumeAll(m, servers[..i]);
      Delays(m, servers)[i] <==> Consume(before, servers[i](before.lastSeq)).1 == Ok
    decreases |servers|
  {
    var n := |servers| - 1;
    if i < n {
      DelaysExactly(m, servers[..n], i);
      assert servers[..n][..i] == servers[..i];
    } else if n > 0 {
      DelaysExactly(m, servers[..n], 0);
    }
  }

  /** Reconnect for ever; here, for as many sessions as the environment grants. A delay follows all but a gap. */
  method RunViewSync(mirror: ViewMirror, servers: seq<Server>) returns (delays: seq<bool>)
    requires mirror.Valid()
    modifies mirror
    ensures mirror.Valid() && mirror.Value() == ConsumeAll(old(mirror.Value()), servers)
    ensures delays == Delays(old(mirror.Value()), servers)
  {
    delays := [];
    var i := 0;
    while i < |servers|
      invariant 0 <= i <= |servers| && mirror.Valid()
      invariant mirror.Value() == ConsumeAll(old(mirror.Value()), servers[..i])
      invariant delays == Delays(old(mirror.Value()), servers[..i])
    {
      var err := ViewSyncOnce(mirror, servers[i]);
      delays := delays + [err.Ok?];
      assert servers[..i + 1][..i] == servers[..i];
      i := i + 1;
    }
    assert servers[..i] == servers;
  }
}
