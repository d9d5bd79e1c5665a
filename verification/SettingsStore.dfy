/** Settings on disk, replaced only by a writer that has seen the current revision. */
module SettingsStore {
  import opened Integers
  import opened Wrappers

  datatype Revisioned<S> = Revisioned(revision: nat, settings: S)

  /** The settings file: absent, holding no settings, or holding some. */
  datatype File<S> = Missing | Corrupt | Stored(stored: Revisioned<S>)

  datatype StorageError = Json | Validation | Conflict(expected: nat, current: nat) | Io

  /** What is read from a file; an absent one stands for the defaults. */
  function Loaded<S>(file: File<S>, defaults: S, valid: S -> bool): Result<Revisioned<S>, StorageError> {
    match file
    case Missing => Ok(Revisioned(0, defaults))
    case Corrupt => Err(Json)
    case Stored(stored) => if valid(stored.settings) then Ok(stored) else Err(Validation)
  }

  /** A replacement of the settings; `written` says whether the disk takes it. */
  datatype Attempt<S> = Attempt(expected: nat, settings: S, written: bool)

  function Replaced<S>(file: File<S>, a: Attempt<S>, defaults: S, valid: S -> bool)
    : (File<S>, Result<Revisioned<S>, StorageError>)
  {
    if !valid(a.settings) then (file, Err(Validation))
    else
      match Loaded(file, defaults, valid)
      case Err(e) => (file, Err(e))
      case Ok(current) =>
        var updated := Revisioned(Saturate(current.revision + 1), a.settings);
        if current.revision != a.expected then (file, Err(Conflict(a.expected, current.revision)))
        else if !a.written then (file, Err(Io))
        else (Stored(updated), Ok(updated))
  }

  class JsonSettingsRepository<S> {
    const defaults: S
    const valid: S -> bool
    var file: File<S>

    constructor (file: File<S>, defaults: S, valid: S -> bool)
      ensures this.file == file && this.defaults == defaults && this.valid == valid
    {
      this.file, this.defaults, this.valid := file, defaults, valid;
    }

    method Load() returns (r: Result<Revisioned<S>, StorageError>)
      ensures r == Loaded(file, defaults, valid)
      ensures match file
              case Missing => r == Ok(Revisioned(0, defaults))
              case Corrupt => r == Err(Json)
              case Stored(stored) => r == if valid(stored.settings) then Ok(stored) else Err(Validation)
    {
      if file.Missing? { return Ok(Revisioned(0, defaults)); }
      if file.Corrupt? { return Err(Json); }
      if !valid(file.stored.settings) { return Err(Validation); }
      r := Ok(file.stored);
    }

    method Replace(expected: nat, settings: S, written: bool) returns (r: Result<Revisioned<S>, StorageError>)
      modifies this
      ensures (file, r) == Replaced(old(file), Attempt(expected, settings, written), defaults, valid)
      ensures var was := old(file);
              var broken := was.Corrupt? || (was.Stored? && !valid(was.stored.settings));
              var current := if was.Stored? then was.stored.revision else 0;
              if valid(settings) && !broken && current == expected && written
              then r == Ok(Revisioned(if current < U64_MAX then current + 1 else U64_MAX, settings))
                   && file == Stored(r.value)
              else
                && file == was
                && r == Err(if !valid(settings) then Validation
                            else if was.Corrupt? then Json
                            else if broken then Validation
                            else if current != expected then Conflict(expected, current) else Io)
    {
      if !valid(settings) { return Err(Validation); }
      var loaded := Load();
      if loaded.Err? { return Err(loaded.error); }
      var current := loaded.value;
      if current.revision != expected { return Err(Conflict(expected, current.revision)); }
      var updated := Revisioned(Saturate(current.revision + 1), settings);
      if !written { return Err(Io); }
      file := Stored(updated);
      r := Ok(updated);
    }
  }

  // ------------------------------------------------------------------------- laws

  /** The file after any attempts, by whichever writers. */
  function AfterAll<S>(file: File<S>, attempts: seq<Attempt<S>>, defaults: S, valid: S -> bool): File<S>
    decreases |attempts|
  {
    if attempts == [] then file
    else
      var before := AfterAll(file, attempts[..|attempts| - 1], defaults, valid);
      Replaced(before, attempts[|attempts| - 1], defaults, valid).0
  }

  function RevisionOf<S>(file: File<S>): nat { if file.Stored? then file.stored.revision else 0 }

  /** A success is read back as it was answered; a failure leaves the file alone. */
  lemma ReadBack<S>(file: File<S>, a: Attempt<S>, defaults: S, valid: S -> bool)
    ensures var (after, r) := Replaced(file, a, defaults, valid);
            && (r.Ok? ==> Loaded(after, defaults, valid) == r && r.value.settings == a.settings)
            && (r.Err? ==> after == file)
  {}

  lemma {:induction false} RevisionsGrow<S>(file: File<S>, attempts: seq<Attempt<S>>, defaults: S, valid: S -> bool)
    requires RevisionOf(file) <= U64_MAX
    ensures RevisionOf(file) <= RevisionOf(AfterAll(file, attempts, defaults, valid)) <= U64_MAX
    ensures Loaded(file, defaults, valid).Ok? ==> Loaded(AfterAll(file, attempts, defaults, valid), defaults, valid).Ok?
    decreases |attempts|
  {
    if attempts != [] { RevisionsGrow(file, attempts[..|attempts| - 1], defaults, valid); }
  }

  /** Two writers that have seen the same revision do not both succeed, however many
      attempts fall in between, until revisions have reached their largest value: from
      then on each overwrites the other unnoticed. */
  lemma SecondWriterSucceedsIff<S>(
      file: File<S>, first: Attempt<S>, between: seq<Attempt<S>>, second: Attempt<S>, defaults: S, valid: S -> bool)
    requires RevisionOf(file) <= U64_MAX
    requires Replaced(file, first, defaults, valid).1.Ok?
    requires second.expected == first.expected && valid(second.settings) && second.written
    ensures var now := AfterAll(Replaced(file, first, defaults, valid).0, between, defaults, valid);
            Replaced(now, second, defaults, valid).1.Ok? <==> first.expected == U64_MAX
  {
    var once := Replaced(file, first, defaults, valid).0;
    ReadBack(file, first, defaults, valid);
    RevisionsGrow(once, between, defaults, valid);
  }

  /** It happens: with the largest revision stored, two writers that have both seen it
      both succeed, and the first one's settings are gone. */
  lemma OverwritingHappens<S>(first: S, second: S, defaults: S, valid: S -> bool)
    requires valid(first) && valid(second)
    ensures var file := Stored(Revisioned(U64_MAX, first));
            var (once, r) := Replaced(file, Attempt(U64_MAX, first, true), defaults, valid);
            var (twice, q) := Replaced(once, Attempt(U64_MAX, second, true), defaults, valid);
            r.Ok? && q.Ok? && twice == Stored(Revisioned(U64_MAX, second))
  {}
}
