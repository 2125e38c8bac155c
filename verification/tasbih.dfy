/** The tasbih counter of the memorial page: four phrase tallies, a running
    total, and the record kept for them in the browser's local storage. */
module Tasbih {
  import opened Options
  import opened Tally

  // The four phrases the page counts, in the order the constructor lists them.
  const Subhanallah: string := "سبحان الله وبحمده"
  const Alhamdulillah: string := "الحمد لله"
  const AllahuAkbar: string := "الله أكبر"
  const RaiseHisRank: string := "اللهم ارفع درجته"

  /** The keys a freshly constructed counter holds. */
  function PhraseKeys(): set<string>
  {
    {Subhanallah, Alhamdulillah, AllahuAkbar, RaiseHisRank}
  }

  /** The table the constructor starts from: every phrase at zero. */
  function Defaults(): (m: map<string, int>)
    ensures m.Keys == PhraseKeys()
    ensures forall k :: k in m ==> m[k] == 0
  {
    map[Subhanallah := 0, Alhamdulillah := 0, AllahuAkbar := 0, RaiseHisRank := 0]
  }

  /** What the counter holds: the tally table and the running total. Both are
      plain integers because a stored record is taken over unchecked. */
  datatype State = State(counters: map<string, int>, totalCount: int)

  /** The state the constructor sets up before it looks at storage. */
  function Fresh(): State
  {
    State(Defaults(), 0)
  }

  /** The running total is the sum of the tallies. */
  ghost predicate Consistent(s: State)
  {
    s.totalCount == Sum(s.counters)
  }

  /** No tally is negative. */
  predicate NonNegative(s: State)
  {
    forall k :: k in s.counters ==> s.counters[k] >= 0
  }

  /** Every phrase the page counts still has a tally. */
  predicate HasPhraseKeys(s: State)
  {
    PhraseKeys() <= s.counters.Keys
  }

  /** What the page relies on between operations. */
  ghost predicate Invariant(s: State)
  {
    Consistent(s) && NonNegative(s) && HasPhraseKeys(s)
  }

  /** Under the invariant the total is a natural number. */
  lemma InvariantTotalNonNegative(s: State)
    requires Invariant(s)
    ensures s.totalCount >= 0
  {
    SumNonNegative(s.counters);
  }

  // ---------------------------------------------------------------------------
  // incrementCounter

  /** The name of the method `incrementCounter` calls on the table to test
      ownership. A loaded record can give the table an own key of that name;
      its number then hides the method, and the call throws a TypeError. */
  const OwnershipTest: string := "hasOwnProperty"

  /** The table can no longer answer `hasOwnProperty`. */
  predicate OwnershipTestShadowed(s: State)
  {
    OwnershipTest in s.counters
  }

  /** The state after `incrementCounter(key)`: a key the table owns gains one
      and so does the total; any other key leaves everything as it was, and
      so does a table whose ownership test is shadowed (the call throws before
      anything changes). */
  function Incremented(s: State, key: string): (r: State)
    ensures r.counters.Keys == s.counters.Keys
    ensures forall k :: k in s.counters && k != key ==> r.counters[k] == s.counters[k]
    ensures key in s.counters && !OwnershipTestShadowed(s) ==>
              r.counters[key] == s.counters[key] + 1 && r.totalCount == s.totalCount + 1
    ensures key !in s.counters || OwnershipTestShadowed(s) ==> r == s
  {
    if OwnershipTestShadowed(s) then s
    else if key in s.counters then State(s.counters[key := s.counters[key] + 1], s.totalCount + 1)
    else s
  }

  lemma IncrementKeepsInvariant(s: State, key: string)
    requires Invariant(s)
    ensures Invariant(Incremented(s, key))
  {
    if key in s.counters {
      SumUpdate(s.counters, key, s.counters[key] + 1);
    }
  }

  // ---------------------------------------------------------------------------
  // resetCounters

  /** The table with every tally, phrase or not, set to zero. */
  function Zeroed(m: map<string, int>): (r: map<string, int>)
    ensures r.Keys == m.Keys
    ensures forall k :: k in r ==> r[k] == 0
  {
    map k | k in m :: 0
  }

  /** The state after a confirmed `resetCounters()`. */
  function Reset(s: State): State
  {
    State(Zeroed(s.counters), 0)
  }

  /** Resetting twice is resetting once. */
  lemma ResetIdempotent(s: State)
    ensures Reset(Reset(s)) == Reset(s)
  {
  }

  /** A reset repairs any drift between total and tallies; the invariant then
      holds exactly when no phrase key has gone missing. */
  lemma ResetRestoresInvariant(s: State)
    ensures Invariant(Reset(s)) <==> HasPhraseKeys(s)
  {
    SumAllZero(Reset(s).counters);
  }

  /** A reset brings back the constructor's state exactly when the table holds
      just the four phrases (a loaded record can add others). */
  lemma ResetIsFreshWhenNoExtraKeys(s: State)
    ensures Reset(s) == Fresh() <==> s.counters.Keys == PhraseKeys()
  {
  }

  // ---------------------------------------------------------------------------
  // saveToStorage / loadFromStorage

  /** The record kept in the storage slot, as `JSON.parse` gives it back.
      `counters` is None when the parsed value has no `counters` member or it
      is null (spreading it then adds nothing); `totalCount` is None when that
      member is missing or null. The `lastUpdated` timestamp is not modelled. */
  datatype Record = Record(counters: Option<map<string, int>>, totalCount: Option<int>)

  /** The record `saveToStorage` writes for state `s`. */
  function Persisted(s: State): Record
  {
    Record(Some(s.counters), Some(s.totalCount))
  }

  /** JavaScript truthiness of a stored total: an absent or null total is
      falsy, and a number is falsy exactly when it is zero. */
  predicate Truthy(t: Option<int>)
  {
    t.Some? && t.value != 0
  }

  /** `data.totalCount || 0`: the stored total when it is truthy, the right
      operand 0 otherwise. Every number comes back as it is, zero included. */
  function StoredTotal(t: Option<int>): (n: int)
    ensures t.Some? ==> n == t.value
    ensures t.None? ==> n == 0
  {
    if Truthy(t) then t.value else 0
  }

  /** The state after `loadFromStorage` finds `stored` in the slot. None stands
      for a missing or empty slot, text that does not parse, and text that
      parses to null (reading `data.counters` then throws and the handler
      keeps the state). A record's tallies are laid over the current table,
      keys the table lacks included; the stored total is taken as it is. */
  function Loaded(s: State, stored: Option<Record>): (r: State)
    ensures stored.None? ==> r == s
    ensures stored.Some? && stored.value.counters.None? ==> r.counters == s.counters
    ensures stored.Some? && stored.value.counters.Some? ==>
              var c := stored.value.counters.value;
              && r.counters.Keys == s.counters.Keys + c.Keys
              && (forall k :: k in c ==> r.counters[k] == c[k])
              && (forall k :: k in s.counters && k !in c ==> r.counters[k] == s.counters[k])
    ensures stored.Some? && stored.value.totalCount.Some? ==> r.totalCount == stored.value.totalCount.value
    ensures stored.Some? && stored.value.totalCount.None? ==> r.totalCount == 0
  {
    match stored
    case None => s
    case Some(data) =>
      var merged := if data.counters.Some? then s.counters + data.counters.value else s.counters;
      State(merged, StoredTotal(data.totalCount))
  }

  /** Loading never drops a phrase key. */
  lemma LoadKeepsPhraseKeys(s: State, stored: Option<Record>)
    requires HasPhraseKeys(s)
    ensures HasPhraseKeys(Loaded(s, stored))
  {
  }

  /** Loading keeps tallies non-negative when the record's are. */
  lemma LoadKeepsNonNegative(s: State, stored: Option<Record>)
    requires NonNegative(s)
    requires stored.Some? && stored.value.counters.Some? ==>
               forall k :: k in stored.value.counters.value ==> stored.value.counters.value[k] >= 0
    ensures NonNegative(Loaded(s, stored))
  {
  }

  /** Saving, then loading into a newly constructed counter, gives back the
      saved state, and does so exactly when that state still had every
      phrase key (a missing one comes back at zero). */
  lemma SaveLoadRoundTrip(s: State)
    ensures Loaded(Fresh(), Some(Persisted(s))) == s <==> HasPhraseKeys(s)
  {
  }

  /** The loaded total is the stored one, so a record whose total disagrees
      with its tallies yields an inconsistent counter; phrases the record
      leaves out come back at zero and do not change the sum. */
  lemma LoadTrustsStoredTotal(c: map<string, int>, t: int)
    ensures Consistent(Loaded(Fresh(), Some(Record(Some(c), Some(t))))) <==> t == Sum(c)
    ensures forall k :: k in PhraseKeys() && k !in c ==>
              Loaded(Fresh(), Some(Record(Some(c), Some(t)))).counters[k] == 0
  {
    SumAddZeros(Defaults(), c);
  }

  /** A concrete record that leaves the total out of step: all tallies zero,
      total one. */
  lemma StaleTotalWitness()
    ensures !Consistent(Loaded(Fresh(), Some(Record(Some(Defaults()), Some(1)))))
  {
    SumAllZero(Defaults());
    LoadTrustsStoredTotal(Defaults(), 1);
  }

  /** Once the table owns a `hasOwnProperty` key, no increment changes
      anything, and neither a reset nor a later load removes that key. */
  lemma ShadowingIsPermanent(s: State, key: string, stored: Option<Record>)
    requires OwnershipTestShadowed(s)
    ensures Incremented(s, key) == s
    ensures OwnershipTestShadowed(Reset(s))
    ensures OwnershipTestShadowed(Loaded(s, stored))
  {
  }

  /** A concrete record that gives the table an own `hasOwnProperty` key:
      loaded into a new counter, it leaves an increment of "الله أكبر"
      without effect, and a reset keeps that key. */
  lemma ShadowedOwnershipTestWitness()
    ensures var s := Loaded(Fresh(), Some(Record(Some(map[OwnershipTest := 1]), Some(1))));
            && Incremented(s, AllahuAkbar) == s
            && OwnershipTestShadowed(Reset(s))
            && Incremented(Reset(s), AllahuAkbar) == Reset(s)
  {
  }

  /** A record naming one phrase only: the others stay at zero, the total is
      the stored one, and here it agrees with the tallies. */
  lemma LoadPartialRecord()
    ensures Loaded(Fresh(), Some(Record(Some(map[AllahuAkbar := 5]), Some(5))))
            == State(Defaults()[AllahuAkbar := 5], 5)
    ensures Invariant(State(Defaults()[AllahuAkbar := 5], 5))
  {
    SumAllZero(Defaults());
    SumUpdate(Defaults(), AllahuAkbar, 5);
  }

  // ---------------------------------------------------------------------------
  // The counter object

  /** `TasbihCounter`: owns the table and the total and changes them in place.
      Every change is followed by a write of the record, which the methods
      hand back as `written` (None when nothing was written). */
  class TasbihCounter {
    var counters: map<string, int>
    var totalCount: int

    /** The state as a value. */
    function Snapshot(): State
      reads this
    {
      State(counters, totalCount)
    }

    /** `new TasbihCounter()`: the defaults, then whatever the storage slot
        holds. */
    constructor (stored: Option<Record>)
      ensures Snapshot() == Loaded(Fresh(), stored)
      ensures HasPhraseKeys(Snapshot())
      ensures stored.None? ==> Invariant(Snapshot())
    {
      counters := Defaults();
      totalCount := 0;
      new;
      SumAllZero(Defaults());
      Load(stored);
    }

    /** `loadFromStorage()`, reading `stored` from the slot. */
    method Load(stored: Option<Record>)
      modifies this
      ensures Snapshot() == Loaded(old(Snapshot()), stored)
    {
      if stored.Some? {
        var data := stored.value;
        if data.counters.Some? {
          counters := counters + data.counters.value;
        }
        totalCount := StoredTotal(data.totalCount);
      }
    }

    /** `incrementCounter(key)`: guarded by the table owning `key`. `threw`
        reports the TypeError of a shadowed ownership test. */
    method Increment(key: string) returns (written: Option<Record>, threw: bool)
      modifies this
      ensures Snapshot() == Incremented(old(Snapshot()), key)
      ensures threw == OwnershipTestShadowed(old(Snapshot()))
      ensures written == if key in old(counters) && !threw then Some(Persisted(Snapshot())) else None
      ensures Invariant(old(Snapshot())) ==> Invariant(Snapshot())
    {
      written := None;
      ghost var before := Snapshot();
      if Invariant(before) {
        IncrementKeepsInvariant(before, key);
      }
      threw := OwnershipTest in counters;
      if threw {
        return;
      }
      if key in counters {
        counters := counters[key := counters[key] + 1];
        totalCount := totalCount + 1;
        written := Some(Persisted(Snapshot()));
      }
    }

    /** `resetCounters()`, with the answer to the confirmation dialog as
        `confirmed`: zero every key one at a time, then the total. */
    method ResetAll(confirmed: bool) returns (written: Option<Record>)
      modifies this
      ensures Snapshot() == if confirmed then Reset(old(Snapshot())) else old(Snapshot())
      ensures written == if confirmed then Some(Persisted(Snapshot())) else None
      ensures confirmed ==> (Invariant(Snapshot()) <==> HasPhraseKeys(old(Snapshot())))
    {
      written := None;
      if confirmed {
        ghost var before := Snapshot();
        var pending := counters.Keys;
        while pending != {}
          invariant counters.Keys == before.counters.Keys
          invariant pending <= counters.Keys
          invariant forall k :: k in counters && k !in pending ==> counters[k] == 0
          decreases pending
        {
          var key :| key in pending;
          counters := counters[key := 0];
          pending := pending - {key};
        }
        totalCount := 0;
        assert counters == Zeroed(before.counters);
        ResetRestoresInvariant(before);
        written := Some(Persisted(Snapshot()));
      }
    }
  }

  /** First visit, then three presses of the takbir button. */
  method ThreeTakbirs() returns (s: State)
    ensures s == State(Defaults()[AllahuAkbar := 3], 3)
    ensures Invariant(s)
  {
    var counter := new TasbihCounter(None);
    var written, threw := counter.Increment(AllahuAkbar);
    written, threw := counter.Increment(AllahuAkbar);
    written, threw := counter.Increment(AllahuAkbar);
    s := counter.Snapshot();
    ThreeIncrements();
  }

  /** The same three presses, on values. */
  lemma ThreeIncrements()
    ensures Incremented(Incremented(Incremented(Fresh(), AllahuAkbar), AllahuAkbar), AllahuAkbar)
            == State(Defaults()[AllahuAkbar := 3], 3)
  {
  }
}
