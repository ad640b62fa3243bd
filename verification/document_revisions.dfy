/**
 The revision a published document has reached (modules/order_to_cash/outcome_store.py) and what ERP announces of it.
 One store serves business partners, invoices, payments and warehouses; `D` is the detail a kind
 records. */
module DocumentRevisions {
  import opened Prelude

  datatype DocumentKey = DocumentKey(tenant: string, kind: string, id: string)

  datatype Recorded<D> = Recorded(revision: nat, status: string, detail: D, firstSeenAt: Time, updatedAt: Time)

  /** What `advance` answers; `changed` is false when nothing observed differs from the stored revision. */
  datatype Advanced = Advanced(revision: nat, firstSeenAt: Time, changed: bool)

  type Table<D> = map<DocumentKey, Recorded<D>>

  /** Statuses only move forward; one that is not ranked counts as the first. */
  function Rank(status: string): nat {
    if status == "allocated" || status == "paid" then 2
    else if status == "partially_allocated" || status == "partially_paid" then 1
    else 0
  }

  predicate Moves<D(==)>(stored: Recorded<D>, status: string, detail: D) {
    Rank(status) >= Rank(stored.status) && (stored.status != status || stored.detail != detail)
  }

  function Observe<D(==)>(rows: Table<D>, key: DocumentKey, status: string, detail: D, now: Time)
    : (Table<D>, Advanced)
  {
    if key !in rows then
      (rows[key := Recorded(1, status, detail, now, now)], Advanced(1, now, true))
    else if Moves(rows[key], status, detail) then
      var next := rows[key].(revision := rows[key].revision + 1, status := status, detail := detail, updatedAt := now);
      (rows[key := next], Advanced(next.revision, next.firstSeenAt, true))
    else
      (rows, Advanced(rows[key].revision, rows[key].firstSeenAt, false))
  }

  class DocumentOutcomes<D(==)> {
    var rows: Table<D>

    constructor ()
      ensures rows == map[]
    {
      rows := map[];
    }

    method Advance(key: DocumentKey, status: string, detail: D, now: Time) returns (step: Advanced)
      modifies this
      ensures (rows, step) == Observe(old(rows), key, status, detail, now)
    {
      if key !in rows {
        rows := rows[key := Recorded(1, status, detail, now, now)];
        return Advanced(1, now, true);
      }
      var stored := rows[key];
      if Rank(status) < Rank(stored.status) {
        return Advanced(stored.revision, stored.firstSeenAt, false);
      }
      if stored.status == status && stored.detail == detail {
        return Advanced(stored.revision, stored.firstSeenAt, false);
      }
      rows := rows[key :=
          stored.(revision := stored.revision + 1, status := status, detail := detail, updatedAt := now)];
      step := Advanced(stored.revision + 1, stored.firstSeenAt, true);
    }
  }

  // ---------------------------------------------------------------------------------------------------------------
  // Revisions and announcements over any sequence of observations
  // ---------------------------------------------------------------------------------------------------------------

  datatype Announcement = Announcement(key: DocumentKey, revision: nat)

  datatype Observation<D> = Observation(key: DocumentKey, status: string, detail: D, at: Time)

  /** The store, the outbox its revisions were announced in, and every (status, detail) a document was recorded with. */
  datatype Published<D> = Published(
    rows: Table<D>,
    outbox: seq<Announcement>,
    versions: map<DocumentKey, seq<(string, D)>>)

  function VersionsOf<D>(p: Published<D>, key: DocumentKey): seq<(string, D)> {
    if key in p.versions then p.versions[key] else []
  }

  /** One caller's transaction: advance, and announce the new revision if its detail can be announced. A warehouse
      without a timezone cannot; every other kind always can. */
  function Publish<D(==)>(p: Published<D>, o: Observation<D>, announceable: D -> bool): Published<D> {
    var (rows, step) := Observe(p.rows, o.key, o.status, o.detail, o.at);
    if !step.changed then p
    else Published(rows,
                   if announceable(o.detail) then p.outbox + [Announcement(o.key, step.revision)] else p.outbox,
                   p.versions[o.key := VersionsOf(p, o.key) + [(o.status, o.detail)]])
  }

  function PublishAll<D(==)>(p: Published<D>, observations: seq<Observation<D>>,
      announceable: D -> bool): Published<D> {
    if observations == [] then p
    else Publish(PublishAll(p, observations[..|observations| - 1], announceable), observations[|observations| - 1],
        announceable)
  }

  function NothingPublished<D>(): Published<D> {
    Published(map[], [], map[])
  }

  function Announced(outbox: seq<Announcement>, key: DocumentKey): seq<nat> {
    if outbox == [] then []
    else
      var last := outbox[|outbox| - 1];
      Announced(outbox[..|outbox| - 1], key) + if last.key == key then [last.revision] else []
  }

  /** The revision numbers, in order, whose detail could be announced. */
  function AnnounceableRevisions<D>(versions: seq<(string, D)>, announceable: D -> bool): seq<nat> {
    if versions == [] then []
    else
      var n := |versions|;
      AnnounceableRevisions(versions[..n - 1], announceable) + if announceable(versions[n - 1].1) then [n] else []
  }

  ghost predicate InStep<D>(p: Published<D>, key: DocumentKey, announceable: D -> bool) {
    var versions := VersionsOf(p, key);
    && (key in p.rows <==> versions != [])
    && (key in p.rows ==> p.rows[key].revision == |versions|
                          && (p.rows[key].status, p.rows[key].detail) == versions[|versions| - 1])
    && Announced(p.outbox, key) == AnnounceableRevisions(versions, announceable)
    && (forall i :: 0 <= i < |versions| - 1 ==> versions[i] != versions[i + 1])
    && (forall i, j :: 0 <= i <= j < |versions| ==> Rank(versions[i].0) <= Rank(versions[j].0))
  }

  lemma AnnouncedAppend(outbox: seq<Announcement>, event: Announcement, key: DocumentKey)
    ensures Announced(outbox + [event], key) == Announced(outbox, key) + if event.key == key then [event.revision]
        else []
  {
    assert (outbox + [event])[..|outbox|] == outbox;
  }

  lemma AnnounceableAppend<D>(versions: seq<(string, D)>, version: (string, D), announceable: D -> bool)
    ensures AnnounceableRevisions(versions + [version], announceable)
         == AnnounceableRevisions(versions, announceable) + if announceable(version.1) then [|versions| + 1] else []
  {
    assert (versions + [version])[..|versions|] == versions;
  }

  lemma PublishKeepsInStep<D>(p: Published<D>, o: Observation<D>, key: DocumentKey, announceable: D -> bool)
    requires InStep(p, key, announceable)
    ensures InStep(Publish(p, o, announceable), key, announceable)
  {
    var step := Observe(p.rows, o.key, o.status, o.detail, o.at).1;
    if step.changed {
      AnnouncedAppend(p.outbox, Announcement(o.key, step.revision), key);
      if o.key == key {
        RecordKeepsInStep(p, o, announceable);
      } else {
        assert VersionsOf(Publish(p, o, announceable), key) == VersionsOf(p, key);
      }
    }
  }

  lemma RecordKeepsInStep<D>(p: Published<D>, o: Observation<D>, announceable: D -> bool)
    requires InStep(p, o.key, announceable) && Observe(p.rows, o.key, o.status, o.detail, o.at).1.changed
    ensures InStep(Publish(p, o, announceable), o.key, announceable)
  {
    var step := Observe(p.rows, o.key, o.status, o.detail, o.at).1;
    var versions := VersionsOf(p, o.key);
    var version := (o.status, o.detail);
    var p' := Publish(p, o, announceable);
    assert VersionsOf(p', o.key) == versions + [version];
    AnnouncedAppend(p.outbox, Announcement(o.key, step.revision), o.key);
    AnnounceableAppend(versions, version, announceable);
    assert step.revision == |versions| + 1;
    assert versions != [] ==> versions[|versions| - 1] != version && Rank(versions[|versions| - 1].0) <= Rank(o.status);
  }

  /** Over any observations: a document's revision is the number of different (status, detail) pairs recorded in a row,
      its status rank never fell from one to the next, and the announced revisions are exactly the announceable ones,
      once each. */
  lemma {:induction false} PublicationTheorem<D>(observations: seq<Observation<D>>, key: DocumentKey,
      announceable: D -> bool)
    ensures InStep(PublishAll(NothingPublished(), observations, announceable), key, announceable)
  {
    if observations != [] {
      var earlier := observations[..|observations| - 1];
      PublicationTheorem(earlier, key, announceable);
      PublishKeepsInStep(PublishAll(NothingPublished(), earlier, announceable), observations[|observations| - 1], key,
          announceable);
    }
  }

  lemma {:induction false} AllRevisions<D>(versions: seq<(string, D)>, announceable: D -> bool)
    requires forall i :: 0 <= i < |versions| ==> announceable(versions[i].1)
    ensures AnnounceableRevisions(versions, announceable) == seq(|versions|, i => i + 1)
  {
    if versions != [] {
      AllRevisions(versions[..|versions| - 1], announceable);
    }
  }

  predicate Always<D>(detail: D) {
    true
  }

  /** Partners, invoices and payments: the announced revisions are exactly 1, 2, ..., revision. */
  lemma EveryRevisionAnnounced<D>(observations: seq<Observation<D>>, key: DocumentKey)
    ensures var p := PublishAll(NothingPublished(), observations, Always);
            Announced(p.outbox, key) == seq(if key in p.rows then p.rows[key].revision else 0, i => i + 1)
  {
    var p := PublishAll(NothingPublished(), observations, Always);
    PublicationTheorem(observations, key, Always);
    AllRevisions(VersionsOf(p, key), Always);
    if key in p.rows {
      assert |VersionsOf(p, key)| == p.rows[key].revision;
    } else {
      assert Announced(p.outbox, key) == [];
    }
  }

  /** A retried completion never takes a settled status back: once a rank is recorded, every later record ranks as
      high. */
  lemma RankNeverFalls<D>(earlier: seq<Observation<D>>, later: seq<Observation<D>>, key: DocumentKey,
      announceable: D -> bool)
    requires key in PublishAll(NothingPublished(), earlier, announceable).rows
    ensures var before := PublishAll(NothingPublished(), earlier, announceable);
            var after := PublishAll(NothingPublished(), earlier + later, announceable);
            && key in after.rows
            && Rank(before.rows[key].status) <= Rank(after.rows[key].status)
            && before.rows[key].revision <= after.rows[key].revision
            && before.rows[key].firstSeenAt == after.rows[key].firstSeenAt
            && (before.rows[key].revision == after.rows[key].revision ==> before.rows[key] == after.rows[key])
    decreases |later|
  {
    if later == [] {
      assert earlier + later == earlier;
    } else {
      var n := |later| - 1;
      RankNeverFalls(earlier, later[..n], key, announceable);
      assert (earlier + later)[..|earlier + later| - 1] == earlier + later[..n];
    }
  }

  // ---------------------------------------------------------------------------------------------------------------
  // What was seen is what is recorded
  // ---------------------------------------------------------------------------------------------------------------

  predicate Final(status: string) {
    status == "paid" || status == "allocated"
  }

  predicate Partial(status: string) {
    status == "partially_paid" || status == "partially_allocated"
  }

  /** A settled status is taken back, fully or in part. */
  predicate Reopens(before: string, status: string) {
    (Final(before) && !Final(status)) || (Partial(before) && !Partial(status) && !Final(status))
  }

  /** No earlier observation of its document is taken back by it. */
  predicate Counts<D(!new)>(observations: seq<Observation<D>>, i: nat)
    requires i < |observations|
  {
    forall j :: 0 <= j < i && observations[j].key == observations[i].key ==>
                  !Reopens(observations[j].status, observations[i].status)
  }

  /** What was seen of a document, the observations that would take a status back left out. */
  function Seen<D(!new)>(observations: seq<Observation<D>>, key: DocumentKey): seq<(string, D)> {
    if observations == [] then []
    else
      var n := |observations| - 1;
      var o := observations[n];
      Seen(observations[..n], key) + if o.key == key && Counts(observations, n) then [(o.status, o.detail)] else []
  }

  /** How often a sequence's next element is another one. */
  function Changes<T(==)>(xs: seq<T>): nat {
    if |xs| <= 1 then 0 else Changes(xs[..|xs| - 1]) + if xs[|xs| - 1] != xs[|xs| - 2] then 1 else 0
  }

  lemma ReopensByRank(before: string, status: string)
    ensures Reopens(before, status) <==> Rank(status) < Rank(before)
  {
  }

  /** The row is at the last observation that counts, which ranks as high as any; its revision is one more than the
      changes up to it. */
  ghost predicate Reflects<D(!new)>(rows: Table<D>, observations: seq<Observation<D>>, key: DocumentKey) {
    var seen := Seen(observations, key);
    && (key in rows <==> seen != [])
    && (key in rows ==>
          && (rows[key].status, rows[key].detail) == seen[|seen| - 1]
          && rows[key].revision == 1 + Changes(seen))
  }

  ghost predicate Topped<D(!new)>(rows: Table<D>, observations: seq<Observation<D>>, key: DocumentKey) {
    forall j :: 0 <= j < |observations| && observations[j].key == key ==>
                  key in rows && Rank(observations[j].status) <= Rank(rows[key].status)
  }

  lemma SeenGrows<D(!new)>(observations: seq<Observation<D>>, o: Observation<D>, key: DocumentKey)
    ensures Seen(observations + [o], key) == Seen(observations, key)
              + if o.key == key && Counts(observations + [o], |observations|) then [(o.status, o.detail)] else []
  {
    assert (observations + [o])[..|observations|] == observations;
  }

  lemma ChangesGrow<T>(xs: seq<T>, x: T)
    ensures Changes(xs + [x]) == if xs == [] then 0 else Changes(xs) + if x != xs[|xs| - 1] then 1 else 0
  {
    assert (xs + [x])[..|xs|] == xs;
  }

  /** An observation counts exactly if it ranks as high as the row it meets. */
  lemma CountsByRow<D(!new)>(rows: Table<D>, observations: seq<Observation<D>>, o: Observation<D>)
    requires Reflects(rows, observations, o.key) && Topped(rows, observations, o.key)
    requires o.key in rows ==> exists j :: 0 <= j < |observations| && observations[j].key == o.key
                                           && observations[j].status == rows[o.key].status
    ensures Counts(observations + [o], |observations|)
        <==> (o.key in rows ==> Rank(o.status) >= Rank(rows[o.key].status))
  {
    var all := observations + [o];
    forall j | 0 <= j < |observations| ensures all[j] == observations[j] {
      ReopensByRank(observations[j].status, o.status);
    }
    if o.key in rows && Rank(o.status) < Rank(rows[o.key].status) {
      var j :| 0 <= j < |observations| && observations[j].key == o.key && observations[j].status == rows[o.key].status;
      assert all[j].key == o.key && Reopens(all[j].status, o.status);
    }
  }

  lemma {:induction false} LastSeenWasObserved<D(!new)>(observations: seq<Observation<D>>, key: DocumentKey)
    requires Seen(observations, key) != []
    ensures var seen := Seen(observations, key);
            exists j :: 0 <= j < |observations| && observations[j].key == key
                        && observations[j].status == seen[|seen| - 1].0
  {
    var n := |observations| - 1;
    if observations[n].key == key && Counts(observations, n) {
      assert observations[n].key == key;
    } else {
      LastSeenWasObserved(observations[..n], key);
      var earlier := Seen(observations[..n], key);
      var j :| 0 <= j < n && observations[..n][j].key == key
               && observations[..n][j].status == earlier[|earlier| - 1].0;
      assert observations[j].key == key;
    }
  }

  lemma ObserveReflects<D(!new)>(rows: Table<D>, observations: seq<Observation<D>>, o: Observation<D>)
    requires Reflects(rows, observations, o.key) && Topped(rows, observations, o.key)
    ensures Reflects(Observe(rows, o.key, o.status, o.detail, o.at).0, observations + [o], o.key)
  {
    var seen, pair := Seen(observations, o.key), (o.status, o.detail);
    SeenGrows(observations, o, o.key);
    if o.key in rows { LastSeenWasObserved(observations, o.key); }
    CountsByRow(rows, observations, o);
    ChangesGrow(seen, pair);
    if Counts(observations + [o], |observations|) {
      assert Seen(observations + [o], o.key) == seen + [pair];
      assert (seen + [pair])[|seen|] == pair;
    } else {
      assert Seen(observations + [o], o.key) == seen;
    }
  }

  lemma ObserveTops<D(!new)>(rows: Table<D>, observations: seq<Observation<D>>, o: Observation<D>, key: DocumentKey)
    requires Topped(rows, observations, key)
    ensures Topped(Observe(rows, o.key, o.status, o.detail, o.at).0, observations + [o], key)
  {
    var after, all := Observe(rows, o.key, o.status, o.detail, o.at).0, observations + [o];
    forall j | 0 <= j < |all| && all[j].key == key
      ensures key in after && Rank(all[j].status) <= Rank(after[key].status)
    {
      if j < |observations| { assert observations[j].key == key; }
    }
  }

  lemma ObserveRecords<D(!new)>(rows: Table<D>, observations: seq<Observation<D>>, o: Observation<D>, key: DocumentKey)
    requires Reflects(rows, observations, key) && Topped(rows, observations, key)
    ensures var after := Observe(rows, o.key, o.status, o.detail, o.at).0;
            Reflects(after, observations + [o], key) && Topped(after, observations + [o], key)
  {
    ObserveTops(rows, observations, o, key);
    if o.key == key {
      ObserveReflects(rows, observations, o);
    } else {
      SeenGrows(observations, o, key);
      assert Seen(observations + [o], key) == Seen(observations, key);
    }
  }

  lemma {:induction false} AllAreRecorded<D(!new)>(observations: seq<Observation<D>>, key: DocumentKey,
      announceable: D -> bool)
    ensures var rows := PublishAll(NothingPublished(), observations, announceable).rows;
            Reflects(rows, observations, key) && Topped(rows, observations, key)
  {
    if observations != [] {
      var n := |observations| - 1;
      AllAreRecorded(observations[..n], key, announceable);
      ObserveRecords(PublishAll(NothingPublished(), observations[..n], announceable).rows, observations[..n],
          observations[n], key);
      assert observations == observations[..n] + [observations[n]];
    }
  }

  /** Over any observations: a document is recorded with the status and detail of its last observation that takes no
      earlier status back, and its revision counts how often what was observed changed. */
  lemma ObservedIsRecorded<D(!new)>(observations: seq<Observation<D>>, key: DocumentKey, announceable: D -> bool)
    ensures var rows, seen := PublishAll(NothingPublished(), observations, announceable).rows, Seen(observations, key);
            && (key in rows <==> seen != [])
            && (key in rows ==>
                  && rows[key].status == seen[|seen| - 1].0 && rows[key].detail == seen[|seen| - 1].1
                  && rows[key].revision == 1 + Changes(seen))
  {
    AllAreRecorded(observations, key, announceable);
    assert Reflects(PublishAll(NothingPublished(), observations, announceable).rows, observations, key);
  }
}
