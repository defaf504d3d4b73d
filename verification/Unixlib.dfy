/**
 linux/src/main.cpp: the entry points behind which the one ALSA backend of the
 process lives. `owner` records which driver instance brought it up.
 */
module Unixlib {
  import opened Alsa
  import opened AlsaControl
  import opened AudioReservation
  import opened Dbus
  import opened Samples

  class Unixlib {
    const reservations: Reservations
    var ac: Control?
    ghost var owner: object?

    ghost function Repr(): set<object>
      reads this, reservations
    {
      {this, reservations} + reservations.Connections() + if ac == null then {} else {ac}
    }

    /** No backend, no reservation: cards are reserved only while `ac` exists. */
    ghost predicate Valid()
      reads this, reservations, Repr()
    {
      && reservations.Valid()
      && (ac == null <==> owner == null)
      && (ac == null ==> reservations.Idle())
      && Ready()
    }

    /** The backend plays to `output` and captures from `input`, if that could be
        opened, and the cards of both are reserved. */
    ghost predicate Serves(output: string, input: string)
      reads this, ac, reservations, reservations.Connections()
    {
      ac != null && ac.Uses(output, input) && reservations.Reserves(output, input)
    }

    /** What the entry points need of the backend, if there is one. */
    ghost predicate Ready()
      reads this`ac, ac
    {
      ac != null ==> ac.Valid() && ac.playbackInitialized
    }

    constructor (cards: map<string, nat>)
      ensures Valid() && ac == null && fresh(Repr())
    {
      reservations := new Reservations(cards);
      ac, owner := null, null;
    }

    /** A second instance cannot disturb the first: with a backend present nothing
        changes. Otherwise the cards of both devices are reserved and the devices are
        opened, each for its direction. It fails only when the bus cannot be reached,
        when it refuses something on the connection `conn`, or when playback cannot
        be opened in the attempt `tried`. */
    method InitAlsa(input: string, output: string, ghost who: object)
      returns (ok: bool, ghost conn: Connection?, ghost tried: Control?)
      requires Valid()
      modifies this, reservations, reservations.Connections()
      ensures Valid()
      ensures old(ac) != null ==>
                !ok && unchanged(this) && unchanged(reservations) && unchanged(old(reservations.Connections()))
      ensures fresh(Repr() - old(Repr()))
      ensures !ok ==> ac == old(ac) && owner == old(owner)
      ensures ok ==> old(ac) == null && ac != null && fresh(ac) && owner == who && !ac.linked && !ac.captureEnabled
      ensures ok ==> Serves(output, input)
      ensures !ok && old(ac) == null ==>
                || reservations.unreachable > old(reservations.unreachable)
                || (conn != null && fresh(conn) && conn.refused)
                || (tried != null && fresh(tried) && !tried.playbackInitialized && tried.failures > 0)
    {
      conn, tried := null, null;
      if ac != null && ac.playbackInitialized {
        return false, conn, tried;
      }

      var acquired;
      acquired, conn := reservations.RequestAcquire(output, input);
      if !acquired {
        return false, conn, tried;
      }

      ok, tried := Open(output, input, who);
    }

    /** Opens the devices of the cards that were just reserved, or gives them back. */
    method Open(output: string, input: string, ghost who: object) returns (ok: bool, ghost tried: Control?)
      requires reservations.Valid() && ac == null && owner == null && reservations.Reserves(output, input)
      modifies this, reservations, reservations.Connections()
      ensures Valid() && reservations.unreachable == old(reservations.unreachable)
      ensures reservations.bus == if ok then old(reservations.bus) else null
      ensures tried != null && fresh(tried)
      ensures !ok ==> ac == null && owner == null && !tried.playbackInitialized && tried.failures > 0
      ensures !ok && old(reservations.bus) != null ==>
                old(reservations.bus).Closed() && old(reservations.bus).refused == old(reservations.bus.refused)
      ensures ok ==> ac == tried && owner == who && !ac.linked && !ac.captureEnabled && Serves(output, input)
    {
      hide Reservations.Reserves;
      ac := new Control(output, input);
      owner, tried := who, ac;

      if !ac.playbackInitialized {
        ac.Close();
        ac, owner := null, null;
        reservations.Cleanup();
        return false, tried;
      }

      return true, tried;
    }

    // ---------- Entry points that need the backend ----------

    ghost function Backend(): set<Control>
      reads this`ac
    {
      if ac == null then {} else {ac}
    }

    method CaptureAvailable() returns (yes: bool)
      ensures yes <==> ac != null && ac.captureInitialized
    {
      return ac != null && ac.captureInitialized;
    }

    method SetAlsaBuffer(sampleRate: int, periodSize: int, bufferSize: int, enableCapture: bool) returns (ok: bool)
      requires Ready()
      modifies Backend()`card, Backend()`failures, Backend()`linked, Backend()`captureEnabled, Backend()`refusedLinks
      ensures Ready()
      ensures if ac == null then !ok else ac.BufferSet(sampleRate, periodSize, bufferSize, enableCapture, ok)
    {
      if ac == null || !ac.playbackInitialized {
        return false;
      }
      ok := ac.SetBuffer(sampleRate, periodSize, bufferSize, enableCapture);
    }

    method ReadAlsa(samples: array<Sample>, frames: nat) returns (result: AudioResult, ghost got: nat)
      requires Ready() && 2 * frames <= samples.Length
      modifies Backend()`card, Backend()`failures, Backend()`handedOut, samples
      ensures Ready()
      ensures if ac == null || !ac.captureInitialized then result == Error && got == 0
              else ac.ReadDone(samples, frames, result, got)
    {
      if ac == null || !ac.captureInitialized {
        return Error, 0;
      }
      result, got := ac.Read(samples, frames);
    }

    method WriteAlsa(samples: array<Sample>, frames: nat) returns (result: AudioResult, ghost written: nat)
      requires Ready() && 2 * frames <= samples.Length
      modifies Backend()`card, Backend()`failures, Backend()`accepted
      ensures Ready()
      ensures if ac == null then result == Error && written == 0 else ac.WriteDone(samples, frames, result, written)
    {
      if ac == null || !ac.playbackInitialized {
        return Error, 0;
      }
      result, written := ac.Write(samples, frames);
    }

    method WaitAlsaPeriod() returns (result: AudioResult)
      requires Ready()
      modifies Backend()`card, Backend()`failures
      ensures Ready()
      ensures if ac == null then result == Error else ac.WaitDone(result)
    {
      if ac == null || !ac.playbackInitialized {
        return Error;
      }
      result := ac.WaitPeriod();
    }

    method PrepareAlsa(alone: bool) returns (ok: bool)
      requires Ready()
      modifies Backend()`card, Backend()`failures
      ensures Ready()
      ensures if ac == null then !ok else exists found, next :: ac.PrepareDone(ok, found, next, alone)
    {
      if ac == null || !ac.playbackInitialized {
        return false;
      }
      ghost var found, next;
      ok, found, next := ac.Prepare(alone);
    }

    method StartAlsa() returns (ok: bool)
      requires Ready()
      modifies Backend()`card, Backend()`failures, Backend()`starts
      ensures Ready()
      ensures if ac == null then !ok else ac.StartDone(ok)
    {
      if ac == null || !ac.playbackInitialized {
        return false;
      }
      ok := ac.Start();
    }

    method StopAlsa(preparing: bool) returns (ok: bool, prepared: bool)
      requires Ready()
      modifies Backend()`card, Backend()`failures, Backend()`drops
      ensures Ready()
      ensures if ac == null then !ok && !prepared else ac.StopDone(ok, prepared) && (prepared ==> preparing)
    {
      if ac == null || !ac.playbackInitialized {
        return false, false;
      }
      ok, prepared := ac.Stop(preparing);
    }

    /** Takes the backend and the reservation down together. */
    method UninitAlsa() returns (ok: bool)
      requires Valid()
      modifies this, reservations, reservations.Connections(), Backend()
      ensures Valid() && ac == null && reservations.Idle()
      ensures ok <==> old(ac) != null
      ensures ok ==> && !old(ac).playbackInitialized && !old(ac).captureInitialized
                     && (old(ac).drops != old(ac.drops) || old(ac).failures > old(ac.failures))
    {
      if ac == null {
        return false;
      }

      ac.Close();
      ac, owner := null, null;
      reservations.Cleanup();
      return true;
    }
  }
}
