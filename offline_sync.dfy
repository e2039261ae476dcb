/**
 * The offline submission queue: a stored record of pending form submissions
 * and the time of the last sync, with the `isOnline`, `isSyncing` and
 * `pendingCount` flags of the hook that manages it.
 *
 * The browser's local storage is the field `store` (JSON encoding and
 * decoding are taken as an exact round trip); the clock is the `now`
 * parameter of each handler.
 */
module OfflineSync {
  import opened Wrappers
  import Numbers
  import Symptoms
  import VitalsForm
  import RegistrationForm

  /** The form data handed to `saveFormData`. */
  datatype Draft = Draft(
    patientInfo: RegistrationForm.PatientInfo,
    vitals: VitalsForm.Vitals,
    symptoms: seq<Symptoms.Symptom>)

  /** A queued submission: the form data plus its save time and id. */
  datatype Submission = Submission(
    patientInfo: RegistrationForm.PatientInfo,
    vitals: VitalsForm.Vitals,
    symptoms: seq<Symptoms.Symptom>,
    timestamp: nat,
    id: string)

  /** The stored record. */
  datatype OfflineData = OfflineData(pendingSubmissions: seq<Submission>, lastSync: nat)

  /** `getOfflineData`: the stored record, or an empty queue with `lastSync`
      0 when nothing is stored. */
  function Stored(store: Option<OfflineData>): (d: OfflineData)
    ensures store.None? ==> d.pendingSubmissions == [] && d.lastSync == 0
    ensures store.Some? ==> d == store.value
  {
    match store
    case None => OfflineData([], 0)
    case Some(data) => data
  }

  /** The entry `saveFormData` builds: the form data, the save time, and that
      time in decimal as the id. */
  function Stamp(draft: Draft, now: nat): (s: Submission)
    ensures s.patientInfo == draft.patientInfo && s.vitals == draft.vitals && s.symptoms == draft.symptoms
    ensures s.timestamp == now
    ensures s.id == Numbers.NatToString(now)
    ensures s.id != [] && Numbers.ParseInt(s.id) == Some(now)
  {
    Numbers.ParseIntOfNatToString(now);
    Submission(draft.patientInfo, draft.vitals, draft.symptoms, now, Numbers.NatToString(now))
  }

  /** The record after one `push`: the entry is appended at the end and the
      earlier entries, their order and `lastSync` are kept. */
  function Enqueue(data: OfflineData, s: Submission): (r: OfflineData)
    ensures |r.pendingSubmissions| == |data.pendingSubmissions| + 1
    ensures r.pendingSubmissions[..|data.pendingSubmissions|] == data.pendingSubmissions
    ensures r.pendingSubmissions[|data.pendingSubmissions|] == s
    ensures r.lastSync == data.lastSync
  {
    OfflineData(data.pendingSubmissions + [s], data.lastSync)
  }

  /** Whether `syncPendingData` gets past its guards. */
  predicate SyncRuns(isOnline: bool, isSyncing: bool, data: OfflineData)
  {
    isOnline && !isSyncing && |data.pendingSubmissions| > 0
  }

  /** The record after `syncPendingData`: unchanged when a guard stops it,
      otherwise the whole queue is dropped and `lastSync` becomes `now`. */
  function SyncOutcome(isOnline: bool, isSyncing: bool, data: OfflineData, now: nat): (r: OfflineData)
    ensures !SyncRuns(isOnline, isSyncing, data) ==> r == data
    ensures SyncRuns(isOnline, isSyncing, data) ==> r.pendingSubmissions == [] && r.lastSync == now
  {
    if SyncRuns(isOnline, isSyncing, data) then OfflineData([], now) else data
  }

  /** Several saves in a row, without a sync in between. */
  function EnqueueAll(data: OfflineData, entries: seq<Submission>): (r: OfflineData)
    decreases |entries|
  {
    if entries == [] then data
    else EnqueueAll(Enqueue(data, entries[0]), entries[1..])
  }

  /** Saves without a sync in between lose nothing and reorder nothing: the
      queue is the old queue followed by the new entries in save order. */
  lemma {:induction false} EnqueueAllAppends(data: OfflineData, entries: seq<Submission>)
    ensures EnqueueAll(data, entries).pendingSubmissions == data.pendingSubmissions + entries
    ensures EnqueueAll(data, entries).lastSync == data.lastSync
    decreases |entries|
  {
    if entries != [] {
      var next := Enqueue(data, entries[0]);
      EnqueueAllAppends(next, entries[1..]);
      assert next.pendingSubmissions + entries[1..] == data.pendingSubmissions + entries by {
        assert entries == [entries[0]] + entries[1..];
      }
    }
  }

  /** While offline, sync never runs, so nothing queued is dropped. */
  lemma OfflineKeepsQueue(isSyncing: bool, data: OfflineData, now: nat)
    ensures SyncOutcome(false, isSyncing, data, now) == data
  {
  }

  /** A sync that ran leaves an empty queue, so an immediate second sync
      changes nothing. */
  lemma SyncTwice(isSyncing: bool, data: OfflineData, now: nat, later: nat)
    ensures var once := SyncOutcome(true, isSyncing, data, now);
            SyncOutcome(true, isSyncing, once, later) == once
  {
  }

  /** Saving while online and not syncing delivers nothing per entry: the
      new entry and everything queued before it are dropped together. */
  lemma OnlineSaveClearsAll(data: OfflineData, draft: Draft, now: nat)
    ensures SyncOutcome(true, false, Enqueue(data, Stamp(draft, now)), now) == OfflineData([], now)
  {
  }

  /** The hook's state. */
  class OfflineQueue {
    /** The local-storage entry ('telemedicine-offline-data'). */
    var store: Option<OfflineData>
    var isOnline: bool
    var isSyncing: bool
    var pendingCount: nat

    /** What `getOfflineData` returns now. */
    function Data(): OfflineData
      reads this
    {
      Stored(store)
    }

    /** `pendingCount` is the stored queue's length. */
    predicate Valid()
      reads this
    {
      pendingCount == |Data().pendingSubmissions|
    }

    /** Mounting: `isOnline` from the browser, not syncing, and the mount
        effect's `updatePendingCount`. */
    constructor (online: bool, stored: Option<OfflineData>)
      ensures store == stored && isOnline == online && !isSyncing
      ensures Valid()
    {
      store := stored;
      isOnline := online;
      isSyncing := false;
      pendingCount := |Stored(stored).pendingSubmissions|;
    }

    /** `updatePendingCount`. */
    method UpdatePendingCount()
      modifies this
      ensures Valid()
      ensures store == old(store) && isOnline == old(isOnline) && isSyncing == old(isSyncing)
    {
      var data := Data();
      pendingCount := |data.pendingSubmissions|;
    }

    /** `saveOfflineData`: write the record, then recount. */
    method SaveOfflineData(data: OfflineData)
      modifies this
      ensures store == Some(data) && Data() == data
      ensures Valid()
      ensures isOnline == old(isOnline) && isSyncing == old(isSyncing)
    {
      store := Some(data);
      UpdatePendingCount();
    }

    /** `syncPendingData` at time `now`. `isSyncing` is raised before the
        write and lowered again afterwards, so it ends as it began. */
    method SyncPendingData(now: nat)
      requires Valid()
      modifies this
      ensures Data() == SyncOutcome(old(isOnline), old(isSyncing), old(Data()), now)
      ensures !SyncRuns(old(isOnline), old(isSyncing), old(Data())) ==>
                store == old(store) && pendingCount == old(pendingCount)
      ensures Valid()
      ensures isOnline == old(isOnline) && isSyncing == old(isSyncing)
    {
      if !isOnline || isSyncing {
        return;
      }
      var data := Data();
      if |data.pendingSubmissions| == 0 {
        return;
      }
      isSyncing := true;
      SaveOfflineData(OfflineData([], now));
      isSyncing := false;
    }

    /** `saveFormData` at time `now`: append the stamped entry and store the
        record; when online, sync straight away. */
    method SaveFormData(draft: Draft, now: nat)
      modifies this
      ensures Data() == SyncOutcome(old(isOnline), old(isSyncing), Enqueue(old(Data()), Stamp(draft, now)), now)
      ensures Valid()
      ensures isOnline == old(isOnline) && isSyncing == old(isSyncing)
    {
      var data := Data();
      var entry := Stamp(draft, now);
      SaveOfflineData(Enqueue(data, entry));
      if isOnline {
        SyncPendingData(now);
      }
    }

    /** The browser's 'online' event at time `now`. */
    method HandleOnline(now: nat)
      requires Valid()
      modifies this
      ensures isOnline
      ensures Valid()
      ensures Data() == SyncOutcome(true, old(isSyncing), old(Data()), now)
      ensures isSyncing == old(isSyncing)
    {
      isOnline := true;
      SyncPendingData(now);
    }

    /** The browser's 'offline' event: only the flag changes. */
    method HandleOffline()
      requires Valid()
      modifies this
      ensures !isOnline
      ensures Valid()
      ensures store == old(store) && isSyncing == old(isSyncing) && pendingCount == old(pendingCount)
    {
      isOnline := false;
    }
  }
}
