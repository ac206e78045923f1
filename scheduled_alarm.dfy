/**
 * The scheduled_alarms table: one record per alarm the app hands to the alarm manager, keyed by
 * the receiver that handles it and an identifier, so that re-scheduling can find the alarm again.
 */
module ScheduledAlarms {
  import opened Wrappers
  import opened Text
  import Seqs

  /** A row of scheduled_alarms; a uid of 0 is a row that the table has not numbered yet. */
  datatype ScheduledAlarm = ScheduledAlarm(
    uid: int,
    addedAt: int,
    receiver: string,
    identifier: string,
    timestamp: int,
    requestCode: int)

  /** The request code: the String hash code of the receiver followed by the identifier. */
  function GenerateRequestCode(receiver: string, identifier: string): (code: int)
    ensures IntMin <= code <= IntMax
  {
    HashCode(receiver + identifier)
  }

  /**
   * The request code is the base-31 polynomial of the UTF-16 code units of receiver ++ identifier,
   * wrapped around into an Int: it depends on the concatenation only, and in the Basic Multilingual
   * Plane the code units are the characters.
   */
  lemma RequestCodeIsPolynomial(receiver: string, identifier: string)
    ensures GenerateRequestCode(receiver, identifier) == Wrap32(HashPolynomial(Utf16(receiver + identifier)))
    ensures var key := receiver + identifier;
      (forall i :: 0 <= i < |key| ==> (key[i] as int) < Plane1) ==>
        GenerateRequestCode(receiver, identifier) == Wrap32(HashPolynomial(seq(|key|, i requires 0 <= i < |key| => key[i] as int)))
  {
    var key := receiver + identifier;
    HashCodeIsPolynomial(key);
    if forall i :: 0 <= i < |key| ==> (key[i] as int) < Plane1 {
      Utf16OfBmp(key);
    }
  }

  /** A character outside the Basic Multilingual Plane is hashed as its two surrogates, U+1F600 as D83D and DE00. */
  lemma RequestCodeOfSurrogatePair()
    ensures GenerateRequestCode("", "\U{1F600}") == 31 * 0xD83D + 0xDE00
  {
    var key := "" + "\U{1F600}";
    assert key == "\U{1F600}";
    assert key[..0] == [];
    assert Utf16(key) == [0xD83D, 0xDE00];
    Wrap32InRange(0xD83D);
    Wrap32InRange(31 * 0xD83D + 0xDE00);
    assert HashUnits([0xD83D, 0xDE00][..1]) == 0xD83D by {
      assert [0xD83D, 0xDE00][..1][..0] == [];
    }
  }

  /** A new, not yet numbered record created at `now`. */
  function CreateEntry(receiver: string, identifier: string, timestamp: int, now: int): (a: ScheduledAlarm)
    ensures a.uid == 0 && a.addedAt == now
    ensures a.receiver == receiver && a.identifier == identifier && a.timestamp == timestamp
    ensures a.requestCode == GenerateRequestCode(receiver, identifier)
  {
    ScheduledAlarm(0, now, receiver, identifier, timestamp, GenerateRequestCode(receiver, identifier))
  }

  /** The contents of the table: its rows in insertion order and the last key it handed out. */
  datatype Table = Table(rows: seq<ScheduledAlarm>, lastUid: int)

  function HasKey(receiver: string, identifier: string): ScheduledAlarm -> bool
  {
    (a: ScheduledAlarm) => a.receiver == receiver && a.identifier == identifier
  }

  /** `getByIdentifier`: the first row with this receiver and identifier. */
  function Lookup(t: Table, receiver: string, identifier: string): Option<ScheduledAlarm>
  {
    Seqs.Find(t.rows, HasKey(receiver, identifier))
  }

  /** `insert` of a record with uid 0: the table numbers it with the next key and appends it. */
  function Inserted(t: Table, a: ScheduledAlarm): Table
  {
    Table(t.rows + [a.(uid := t.lastUid + 1)], t.lastUid + 1)
  }

  /**
   * `getOrCreateScheduledAlarm`: the stored record when there is one; otherwise a new record,
   * which is inserted and returned as created, with uid 0.
   */
  function GetOrCreate(t: Table, receiver: string, identifier: string, timestamp: int, now: int)
    : (Table, ScheduledAlarm)
  {
    match Lookup(t, receiver, identifier)
    case Some(existing) => (t, existing)
    case None =>
      var a := CreateEntry(receiver, identifier, timestamp, now);
      (Inserted(t, a), a)
  }

  /** No two rows share a receiver and an identifier. */
  ghost predicate UniqueKeys(t: Table)
  {
    forall i, j :: 0 <= i < j < |t.rows| ==>
      t.rows[i].receiver != t.rows[j].receiver || t.rows[i].identifier != t.rows[j].identifier
  }

  /** Every row carries the request code of its receiver and identifier, as CreateEntry gives it. */
  ghost predicate CodesGenerated(t: Table)
  {
    forall i :: 0 <= i < |t.rows| ==>
      t.rows[i].requestCode == GenerateRequestCode(t.rows[i].receiver, t.rows[i].identifier)
  }

  /** Inserting created entries keeps every row's request code the generated one. */
  lemma InsertKeepsCodesGenerated(t: Table, receiver: string, identifier: string, timestamp: int, now: int)
    requires CodesGenerated(t)
    ensures CodesGenerated(Inserted(t, CreateEntry(receiver, identifier, timestamp, now)))
    ensures CodesGenerated(GetOrCreate(t, receiver, identifier, timestamp, now).0)
  {
    var t' := Inserted(t, CreateEntry(receiver, identifier, timestamp, now));
    assert forall i :: 0 <= i < |t.rows| ==> t'.rows[i] == t.rows[i];
  }

  /** After a created entry is inserted, a lookup by its key finds a row with the generated request code. */
  lemma LookupAfterInsertHasCode(t: Table, receiver: string, identifier: string, timestamp: int, now: int)
    requires CodesGenerated(t)
    ensures var found := Lookup(Inserted(t, CreateEntry(receiver, identifier, timestamp, now)), receiver, identifier);
      && found.Some?
      && found.value.requestCode == GenerateRequestCode(receiver, identifier)
  {
    var entry := CreateEntry(receiver, identifier, timestamp, now);
    LookupAfterInsertKeepsCode(t, entry);
  }

  /** When every stored row with the key of `a` has the code of `a`, so does the row found after inserting `a`. */
  lemma LookupAfterInsertKeepsCode(t: Table, a: ScheduledAlarm)
    requires forall i :: 0 <= i < |t.rows| && t.rows[i].receiver == a.receiver && t.rows[i].identifier == a.identifier
               ==> t.rows[i].requestCode == a.requestCode
    ensures var found := Lookup(Inserted(t, a), a.receiver, a.identifier);
      found.Some? && found.value.requestCode == a.requestCode
  {
    var p := HasKey(a.receiver, a.identifier);
    Seqs.FindAppend(t.rows, a.(uid := t.lastUid + 1), p);
    Seqs.FindKeeps(t.rows, p, (b: ScheduledAlarm) => b.requestCode == a.requestCode);
  }

  /** A stored record is returned as it is, and the table is left unchanged. */
  lemma GetOrCreateExisting(t: Table, receiver: string, identifier: string, timestamp: int, now: int)
    requires Lookup(t, receiver, identifier).Some?
    ensures GetOrCreate(t, receiver, identifier, timestamp, now)
            == (t, Lookup(t, receiver, identifier).value)
    ensures GetOrCreate(t, receiver, identifier, timestamp, now).1.receiver == receiver
    ensures GetOrCreate(t, receiver, identifier, timestamp, now).1.identifier == identifier
  {
  }

  /**
   * Without a stored record exactly one row is appended: the new record, numbered, with the
   * given timestamp and the generated request code; lookups afterwards find it.
   */
  lemma GetOrCreateInsertsOne(t: Table, receiver: string, identifier: string, timestamp: int, now: int)
    requires Lookup(t, receiver, identifier).None?
    ensures var (t', a) := GetOrCreate(t, receiver, identifier, timestamp, now);
      && t'.rows == t.rows + [a.(uid := t.lastUid + 1)]
      && a.uid == 0 && a.timestamp == timestamp && a.addedAt == now
      && a.requestCode == GenerateRequestCode(receiver, identifier)
      && Lookup(t', receiver, identifier) == Some(a.(uid := t.lastUid + 1))
  {
    var a := CreateEntry(receiver, identifier, timestamp, now);
    Seqs.FindAppend(t.rows, a.(uid := t.lastUid + 1), HasKey(receiver, identifier));
  }

  /**
   * A second call with the same key changes nothing and returns the stored record: same
   * timestamp and request code as the first call's, whatever timestamp the second call passes.
   */
  lemma GetOrCreateIdempotent(t: Table, receiver: string, identifier: string, ts1: int, ts2: int, now1: int, now2: int)
    ensures var (t1, a1) := GetOrCreate(t, receiver, identifier, ts1, now1);
            var (t2, a2) := GetOrCreate(t1, receiver, identifier, ts2, now2);
      && t2 == t1
      && a2.timestamp == a1.timestamp && a2.requestCode == a1.requestCode
      && a2.addedAt == a1.addedAt
  {
    if Lookup(t, receiver, identifier).None? {
      GetOrCreateInsertsOne(t, receiver, identifier, ts1, now1);
    }
  }

  /** Rows created only through GetOrCreate stay unique per receiver and identifier. */
  lemma GetOrCreateKeepsKeysUnique(t: Table, receiver: string, identifier: string, timestamp: int, now: int)
    requires UniqueKeys(t)
    ensures UniqueKeys(GetOrCreate(t, receiver, identifier, timestamp, now).0)
  {
    var p := HasKey(receiver, identifier);
    if Lookup(t, receiver, identifier).None? {
      var t' := GetOrCreate(t, receiver, identifier, timestamp, now).0;
      forall i, j | 0 <= i < j < |t'.rows|
        ensures t'.rows[i].receiver != t'.rows[j].receiver || t'.rows[i].identifier != t'.rows[j].identifier
      {
        if j == |t.rows| {
          assert !p(t.rows[i]);
        } else {
          assert t'.rows[i] == t.rows[i] && t'.rows[j] == t.rows[j];
        }
      }
    }
  }

  /** The scheduled_alarms table of the app's database. */
  class AlarmTable {
    var rows: seq<ScheduledAlarm>
    var lastUid: int

    function Model(): Table
      reads this
    {
      Table(rows, lastUid)
    }

    constructor ()
      ensures Model() == Table([], 0)
    {
      rows := [];
      lastUid := 0;
    }

    /** `getByIdentifier`. */
    method GetByIdentifier(receiver: string, identifier: string) returns (r: Option<ScheduledAlarm>)
      ensures r == Lookup(Model(), receiver, identifier)
      ensures r.Some? ==> r.value in rows && r.value.receiver == receiver && r.value.identifier == identifier
      ensures r.None? <==> forall a :: a in rows ==> a.receiver != receiver || a.identifier != identifier
    {
      var i := 0;
      while i < |rows|
        invariant 0 <= i <= |rows|
        invariant Lookup(Model(), receiver, identifier) == Seqs.Find(rows[i..], HasKey(receiver, identifier))
      {
        assert rows[i..][1..] == rows[i + 1..];
        if rows[i].receiver == receiver && rows[i].identifier == identifier {
          return Some(rows[i]);
        }
        i := i + 1;
      }
      r := None;
    }

    /** `insert`: numbers the record with the next key and appends it; returns the key. */
    method Insert(a: ScheduledAlarm) returns (uid: int)
      requires a.uid == 0
      modifies this
      ensures Model() == Inserted(old(Model()), a)
      ensures uid == lastUid
    {
      lastUid := lastUid + 1;
      rows := rows + [a.(uid := lastUid)];
      uid := lastUid;
    }

    /** `getOrCreateScheduledAlarm`. */
    method GetOrCreateScheduledAlarm(receiver: string, identifier: string, timestamp: int, now: int)
      returns (a: ScheduledAlarm)
      modifies this
      ensures (Model(), a) == GetOrCreate(old(Model()), receiver, identifier, timestamp, now)
    {
      var found := GetByIdentifier(receiver, identifier);
      if found.Some? {
        a := found.value;
      } else {
        a := CreateEntry(receiver, identifier, timestamp, now);
        var _ := Insert(a);
      }
    }
  }
}
