/** The playback write loop: partial writes, recovery and re-opening.

    What the device answers is scripted, one `Turn` per call of snd_pcm_writei.
    The loop may go on for ever, so running out of script is a status. */
module AlsaWrite {
  import opened AlsaBuffer

  /** The device takes up to `wish` frames of `frameBytes` each, or fails: in a bad
      state, with a bad descriptor or suspended, after which the stream is opened
      again with this success; or in another way, which is left to snd_pcm_recover. */
  datatype Turn =
    | Wrote(wish: nat, frameBytes: nat)
    | BadState(reopened: bool)
    | BadDescriptor(reopened: bool)
    | Suspended(reopened: bool)
    | OtherError

  datatype Status = Finished | Stopped | Running

  /** How many bytes were sent, how the loop ended, and after how many turns. */
  datatype Progress = Progress(sent: nat, status: Status, turns: nat)

  predicate Fatal(t: Turn) {
    (t.BadState? || t.BadDescriptor? || t.Suspended?) && !t.reopened
  }

  predicate Proper(t: Turn) {
    t.Wrote? ==> t.frameBytes > 0
  }

  /** Bytes taken when `left` bytes are offered in whole frames. */
  function Taken(t: Turn, left: nat): (n: nat)
    requires Proper(t)
    ensures n <= left
  {
    if t.Wrote? then
      var frames := left / t.frameBytes;
      WholeFrames(left, t.frameBytes, if t.wish < frames then t.wish else frames);
      (if t.wish < frames then t.wish else frames) * t.frameBytes
    else 0
  }

  lemma WholeFrames(left: nat, size: nat, frames: nat)
    requires size > 0 && frames <= left / size
    ensures frames * size <= left
  {
    assert left / size * size <= left;
    assert frames * size <= left / size * size;
  }

  ghost predicate ProperScript(script: seq<Turn>) {
    forall i :: 0 <= i < |script| ==> Proper(script[i])
  }

  /** The loop on lengths alone, with `sent` bytes sent before turn k. */
  ghost function WriteFrom(bytes: nat, sent: nat, script: seq<Turn>, k: nat): Progress
    requires sent <= bytes && k <= |script| && ProperScript(script)
    decreases |script| - k
  {
    if sent == bytes then Progress(sent, Finished, k)
    else if k == |script| then Progress(sent, Running, k)
    else if Fatal(script[k]) then Progress(sent, Stopped, k + 1)
    else WriteFrom(bytes, sent + Taken(script[k], bytes - sent), script, k + 1)
  }

  /** The loop finishes exactly when everything is sent, stops short exactly in the
      turn of a failed re-open, the first there is, and goes on otherwise. */
  lemma {:induction false} ShortOnlyAfterFailedReopen(bytes: nat, sent: nat, script: seq<Turn>, k: nat)
    requires sent <= bytes && k <= |script| && ProperScript(script)
    ensures
      var p := WriteFrom(bytes, sent, script, k);
      && sent <= p.sent <= bytes && k <= p.turns <= |script|
      && (p.status.Finished? <==> p.sent == bytes)
      && (p.status.Stopped? <==> p.turns > k && Fatal(script[p.turns - 1]))
      && (forall j :: k <= j < p.turns - 1 ==> !Fatal(script[j]))
      && (p.status.Running? <==>
            p.sent < bytes && p.turns == |script| && (k < |script| ==> !Fatal(script[|script| - 1])))
    decreases |script| - k
  {
    if sent < bytes && k < |script| && !Fatal(script[k]) {
      ShortOnlyAfterFailedReopen(bytes, sent + Taken(script[k], bytes - sent), script, k + 1);
    }
  }

  /** From `sent` to `next` by whole frames: as many as the device takes or as fit. */
  predicate Advances(sent: nat, next: nat, bytes: nat, wish: nat, size: nat) {
    && size > 0 && sent <= next <= bytes
    && (next - sent) % size == 0 && (next - sent) / size <= wish
    && ((next - sent) / size == wish || bytes - next < size)
  }

  /** What each answer of the device does while bytes are left: whole frames that fit
      are sent, at most as many as the device takes; an error that is left to
      snd_pcm_recover and a re-open that succeeds go on with nothing sent; a re-open
      that fails ends the write. */
  lemma EachAnswer(bytes: nat, sent: nat, script: seq<Turn>, k: nat)
    requires sent < bytes && k < |script| && ProperScript(script)
    ensures
      var p := WriteFrom(bytes, sent, script, k);
      match script[k]
      case OtherError => p == WriteFrom(bytes, sent, script, k + 1)
      case BadState(reopened) =>
        p == if reopened then WriteFrom(bytes, sent, script, k + 1) else Progress(sent, Stopped, k + 1)
      case BadDescriptor(reopened) =>
        p == if reopened then WriteFrom(bytes, sent, script, k + 1) else Progress(sent, Stopped, k + 1)
      case Suspended(reopened) =>
        p == if reopened then WriteFrom(bytes, sent, script, k + 1) else Progress(sent, Stopped, k + 1)
      case Wrote(wish, size) =>
        exists next: nat :: Advances(sent, next, bytes, wish, size) && p == WriteFrom(bytes, next, script, k + 1)
  {
    if script[k].Wrote? {
      var size := script[k].frameBytes;
      var frames := FramesTaken(script[k], bytes - sent);
      var next := sent + frames * size;
      MultipleLeavesNothing(frames, size);
      QuotientOf(frames, size, frames * size);
      assert bytes - next < size || frames == script[k].wish by {
        assert (frames + 1) * size == frames * size + size;
      }
      assert Advances(sent, next, bytes, script[k].wish, size);
    }
  }

  lemma FramesTaken(t: Turn, left: nat) returns (frames: nat)
    requires Proper(t) && t.Wrote?
    ensures Taken(t, left) == frames * t.frameBytes <= left && frames <= t.wish
    ensures frames == t.wish || left < (frames + 1) * t.frameBytes
  {
    frames := if t.wish < left / t.frameBytes then t.wish else left / t.frameBytes;
    Quotient(left, t.frameBytes);
  }

  /** A buffer that is not a whole number of frames is never finished: the
      remainder is offered for ever as zero frames, and zero frames are taken. */
  lemma {:induction false} RemainderNeverFinishes(bytes: nat, sent: nat, script: seq<Turn>, k: nat, size: nat)
    requires sent <= bytes && size > 0 && k <= |script| && ProperScript(script)
    requires forall i :: 0 <= i < |script| ==> !Fatal(script[i]) && (script[i].Wrote? ==> script[i].frameBytes == size)
    requires sent % size == 0 && bytes % size != 0
    ensures WriteFrom(bytes, sent, script, k).status.Running?
    decreases |script| - k
  {
    if k < |script| {
      var n := Taken(script[k], bytes - sent);
      MultiplesAdd(sent, n, size, script[k], bytes - sent);
      RemainderNeverFinishes(bytes, sent + n, script, k + 1, size);
    }
  }

  lemma MultiplesAdd(a: nat, b: nat, size: nat, t: Turn, left: nat)
    requires size > 0 && a % size == 0 && Proper(t) && (t.Wrote? ==> t.frameBytes == size) && b == Taken(t, left)
    ensures (a + b) % size == 0
  {
    var k := a / size;
    assert a == k * size;
    if t.Wrote? {
      var frames := if t.wish < left / size then t.wish else left / size;
      assert a + b == (k + frames) * size;
      MultipleLeavesNothing(k + frames, size);
    }
  }

  /** With whole frames and a device that takes at least one a turn, as many turns
      as there are bytes left are enough. */
  lemma {:induction false} WholeFramesFinish(bytes: nat, sent: nat, script: seq<Turn>, k: nat, size: nat)
    requires sent <= bytes && size > 0 && k <= |script| && bytes - sent <= |script| - k && (bytes - sent) % size == 0
    requires ProperScript(script)
    requires forall i :: 0 <= i < |script| ==> script[i].Wrote? && script[i].frameBytes == size && script[i].wish > 0
    ensures WriteFrom(bytes, sent, script, k).sent == bytes && WriteFrom(bytes, sent, script, k).status.Finished?
    decreases |script| - k
  {
    if sent < bytes {
      var left := bytes - sent;
      var n := Taken(script[k], left);
      SomeFrameTaken(script[k], left, size);
      WholeFramesFinish(bytes, sent + n, script, k + 1, size);
    }
  }

  /** Every write on the script is of frames of this size, and no re-open fails. */
  ghost predicate Steady(script: seq<Turn>, size: nat) {
    ProperScript(script) &&
    forall i :: 0 <= i < |script| ==> !Fatal(script[i]) && (script[i].Wrote? ==> script[i].frameBytes == size)
  }

  ghost predicate CanFinish(bytes: nat, size: nat) {
    exists script :: Steady(script, size) && WriteFrom(bytes, 0, script, 0).status.Finished?
  }

  /** So there is a course of the loop without a failed re-open that returns if and
      only if the buffer is a whole number of frames. */
  lemma OnlyWholeFramesCanFinish(bytes: nat, size: nat)
    requires size > 0
    ensures CanFinish(bytes, size) <==> bytes % size == 0
  {
    if bytes % size == 0 {
      var script := seq(bytes, i => Wrote(1, size));
      WholeFramesFinish(bytes, 0, script, 0, size);
      assert Steady(script, size);
    } else {
      forall script | Steady(script, size) ensures !WriteFrom(bytes, 0, script, 0).status.Finished? {
        RemainderNeverFinishes(bytes, 0, script, 0, size);
      }
    }
  }

  lemma SomeFrameTaken(t: Turn, left: nat, size: nat)
    requires Proper(t) && t.Wrote? && t.frameBytes == size && t.wish > 0 && left > 0 && left % size == 0
    ensures Taken(t, left) > 0 && (left - Taken(t, left)) % size == 0
  {
    var frames := if t.wish < left / size then t.wish else left / size;
    assert left == left / size * size;
    assert left - frames * size == (left / size - frames) * size;
    MultipleLeavesNothing(left / size - frames, size);
    assert left / size >= 1;
    assert frames * size >= size;
  }

  /** The stream in the code's own form. `accepted` is what the device has taken,
      `resets` how often the device was reset. */
  class AlsaStream {
    /** The handle plays to the auxiliary digital device alone. */
    const isAux: bool
    var hpcm: bool
    var isSilent: bool
    var accepted: seq<int>
    var resets: nat

    constructor (isAux: bool)
      ensures this.isAux == isAux && !hpcm && !isSilent && accepted == [] && resets == 0
    {
      this.isAux, hpcm, isSilent, accepted, resets := isAux, false, false, [], 0;
    }

    /** snd_pcm_writei: the device takes the first bytes it is offered. */
    method Writei(offered: seq<int>, t: Turn) returns (n: nat)
      requires Proper(t)
      modifies this`accepted
      ensures n == Taken(t, |offered|) && accepted == old(accepted) + offered[..n]
    {
      n := Taken(t, |offered|);
      accepted := accepted + offered[..n];
    }

    /** NvAudioALSADevOpen, with the given success. An auxiliary stream starts silent. */
    method Open(ok: bool) returns (err: int)
      modifies this`hpcm, this`isSilent
      ensures err < 0 <==> !ok
      ensures ok ==> hpcm && isSilent == (isAux || old(isSilent))
      ensures !ok ==> isSilent == old(isSilent)
    {
      err := if ok then 0 else -1;
      if ok {
        hpcm := true;
        if isAux {
          isSilent := true;
        }
      }
    }

    /** The branches for a negative answer: close and open, forget and open, or
        leave it to snd_pcm_recover, which never answers a count of frames. What
        closing does to the handle does not matter before an open. */
    method Recover(t: Turn) returns (err: int)
      requires !t.Wrote? && hpcm
      modifies this`hpcm, this`isSilent
      ensures err < 0 <==> Fatal(t)
      ensures err >= 0 ==> hpcm
      ensures isSilent ==> isAux || old(isSilent)
    {
      match t {
        case BadState(ok) =>
          isSilent := false;
          err := Open(ok);
        case BadDescriptor(ok) =>
          hpcm := false;
          err := Open(ok);
        case Suspended(ok) =>
          err := Open(ok);
        case OtherError =>
          err := 0;
      }
    }

    /** The bytes the device has taken are the first `sent` of the buffer, once
        each and in order, across partial writes, recoveries and re-opens. A silent
        auxiliary stream is reset once, before anything is sent. */
    method Write(buffer: seq<int>, script: seq<Turn>) returns (sent: nat, ghost status: Status, ghost turns: nat)
      requires ProperScript(script)
      modifies this`hpcm, this`isSilent, this`accepted, this`resets
      ensures sent <= |buffer| && accepted == old(accepted) + buffer[..sent]
      ensures old(hpcm) ==> Progress(sent, status, turns) == WriteFrom(|buffer|, 0, script, 0)
      ensures !old(hpcm) ==> sent == 0 && !hpcm
      ensures resets == old(resets) + if old(isSilent) && isAux then 1 else 0
      ensures !old(isSilent) && !isAux ==> !isSilent
    {
      if isSilent && isAux {
        resets := resets + 1;
        isSilent := false;
      }
      sent, status, turns := 0, Stopped, 0;
      var k := 0;
      while hpcm && sent < |buffer| && k < |script|
        invariant 0 <= k <= |script| && sent <= |buffer| && hpcm == old(hpcm)
        invariant !hpcm ==> sent == 0
        invariant accepted == old(accepted) + buffer[..sent]
        invariant WriteFrom(|buffer|, sent, script, k) == WriteFrom(|buffer|, 0, script, 0)
        invariant !old(isSilent) && !isAux ==> !isSilent
        invariant resets == old(resets) + if old(isSilent) && isAux then 1 else 0
      {
        var t := script[k];
        k := k + 1;
        if t.Wrote? {
          ghost var before := sent;
          var n := Writei(buffer[sent..], t);
          sent := sent + n;
          assert buffer[..before] + buffer[before..][..n] == buffer[..sent];
        } else {
          var err := Recover(t);
          if err < 0 {
            turns := k;
            return;
          }
        }
      }
      turns := k;
      status := if sent == |buffer| then Finished else if k == |script| && hpcm then Running else Stopped;
    }
  }
}
