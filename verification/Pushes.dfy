/** Every firmware push on the wire was meant for the hardware the device had claimed. */
module Pushes {
  import opened Domain
  import opened Protocol
  import opened Invariants
  import opened Reachable
  import opened History
  import opened Requests
  import opened Identity
  import opened Ledger
  import opened Spelling
  import opened Writes

  /** An ota_update the server sends of its own: not one a user typed as a command. */
  predicate IsPush(p: Publish) { p.body.Action() == "ota_update" && p.cause != Direct }

  function PushOf(e: Event, deviceType: string): Publish
    requires e.action.OtaPush?
  {
    var f := e.action.firmware;
    Publish(e.now, deviceType, e.id, OtaUpdate(f.version, f.hwCode, f.hwRev), Push)
  }

  lemma {:induction false} PendingAreNoPushes(rows: seq<Command>, id: Id)
    ensures forall i :: 0 <= i < |PendingBodies(rows, id)| ==> PendingBodies(rows, id)[i].Action() != "ota_update"
  {
    if rows != [] { PendingAreNoPushes(rows[..|rows| - 1], id); }
  }

  lemma WakeUpHasNoPush(c: Card, rows: seq<Command>, id: Id)
    ensures forall i :: 0 <= i < |WakeUpMails(c, rows, id)| ==> WakeUpMails(c, rows, id)[i].0.Action() != "ota_update"
  {
    hide PendingBodies;
    PendingAreNoPushes(rows, id);
  }

  /** Of all that is ever published only an admin's push is one. */
  lemma OnlyPushesPush(c: Card, mirror: Mirror, rows: seq<Command>, e: Event, i: nat)
    requires i < |GainedWire(c, mirror, rows, e)| && IsPush(GainedWire(c, mirror, rows, e)[i])
    ensures e.action.OtaPush? && e.up && GainedWire(c, mirror, rows, e)[i] == PushOf(e, c.kind)
    ensures var f := e.action.firmware;
            c.settings.ota && c.settings.code == Some(f.hwCode) && c.settings.revision == Some(f.hwRev)
  {
    hide WakeUpMails, Letters;
    WakeUpHasNoPush(c, rows, e.id);
  }

  /** Event `i` of the run is a push, accepted by the broker, of a firmware for exactly the hardware code and revision
      its device had last claimed, in reports that last claimed it can be updated. */
  predicate Claimed(es: seq<Event>, i: nat, p: Publish)
    requires i < |es|
  {
    var e := es[i];
    && e.action.OtaPush? && e.up && p == PushOf(e, p.deviceType)
    && LastSet(es[..i], e.id, ClaimedOta, false) == Some(true)
    && LastSet(es[..i], e.id, ClaimedCode, false) == Some(Some(e.action.firmware.hwCode))
    && LastSet(es[..i], e.id, ClaimedRevision, false) == Some(e.action.firmware.hwRev)
  }

  /** In every run every firmware push on the wire comes from an admin's push for the hardware the device had last
      claimed: no flush, wake-up or answer ever repeats or alters one. */
  lemma {:induction false} PushesWereClaimed(es: seq<Event>, k: nat)
    requires Timed(es) && k < |Run(es).wire| && IsPush(Run(es).wire[k])
    ensures exists i: nat :: i < |es| && Claimed(es, i, Run(es).wire[k])
  {
    hide Step, Run, Inv, LastSet, CardOf, GainedEntries, GainedReadings, GainedWire, GainedCommands, IsPush;
    if es == [] {
      NoEvents();
    } else {
      var front, e := es[..|es| - 1], es[|es| - 1];
      var s := Run(front);
      assert front + [e] == es;
      Front(es);
      RunStep(es);
      if !Runs(s, e) { WireUnchanged(s, e); } else { EventWrites(front, e); }
      if k < |s.wire| {
        PushesWereClaimed(front, k);
        var i: nat :| i < |front| && Claimed(front, i, s.wire[k]);
        assert front[..i] == es[..i];
        assert Claimed(es, i, Run(es).wire[k]);
      } else {
        OnlyPushesPush(CardBefore(front, e, e.id), Opened(s, e).device.calibration, s.commands, e, k - |s.wire|);
        AllowedWasClaimed(front, e);
        assert Claimed(es, |es| - 1, Run(es).wire[k]);
      }
    }
  }

  lemma {:induction false} AllowedWasClaimed(es: seq<Event>, e: Event)
    requires Timed(es) && Runs(Run(es), e) && e.action.OtaPush?
    requires var c, f := CardBefore(es, e, e.id), e.action.firmware;
             c.settings.ota && c.settings.code == Some(f.hwCode) &&
             c.settings.revision == Some(f.hwRev)
    ensures LastSet(es, e.id, ClaimedOta, false) == Some(true)
    ensures LastSet(es, e.id, ClaimedCode, false) == Some(Some(e.action.firmware.hwCode))
    ensures LastSet(es, e.id, ClaimedRevision, false) == Some(e.action.firmware.hwRev)
  {
    hide Run, LastSet, CardOf, Values;
    IdentityIsLastClaimed(es, e.id);
    RowIsCard(es, e.id);
  }
}
