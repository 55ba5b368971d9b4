/** The job-tracking table of the PingTools server as values: the records, the
    two transitions that change the table (a posted event and a timeout sweep)
    and what they guarantee, alone and over any run of them. */
module Suivi {
  import opened Wrappers

  /** Status of a job that has started and not yet reported its end. */
  const EnCours: string := "En Cours"
  /** Status given to a job that ended without a status, or timed out. */
  const Echec: string := "Échec"

  /** Names every plain JavaScript object inherits from Object.prototype. Reading
      one of them on the table yields a (truthy) object even when the table has
      no entry of that name. */
  const InheritedNames: set<string> := {
    "constructor", "__proto__", "toString", "toLocaleString", "valueOf",
    "hasOwnProperty", "isPrototypeOf", "propertyIsEnumerable",
    "__defineGetter__", "__defineSetter__", "__lookupGetter__", "__lookupSetter__"
  }

  /** The token whose lookup yields Object.prototype itself. */
  const ProtoKey: string := "__proto__"

  /** One tracked job. `dateFinTheorique` is the instant `new Date` reads from
      the stored value (None: the value is missing or not a date); the other
      fields are kept as sent (None: not sent). */
  datatype Record = Record(
    nomDuPoste: Option<string>,
    dateDebut: Option<string>,
    dateFinTheorique: Option<int>,
    dateFinReelle: Option<string>,
    statut: string)
  {
    /** The fields fixed when the record is created. */
    function Creation(): (c: (Option<string>, Option<string>, Option<int>))
    {
      (nomDuPoste, dateDebut, dateFinTheorique)
    }
  }

  /** The body of a POST to /api/data; every field may be missing. */
  datatype Event = Event(
    chaineAleatoire: Option<string>,
    nomDuPoste: Option<string>,
    dateDebut: Option<string>,
    dateFinTheorique: Option<int>,
    dateFinReelle: Option<string>,
    statut: Option<string>)
  {
    /** The property name the token selects: a missing token is converted to
        the string "undefined". */
    function Key(): (k: string)
    {
      if chaineAleatoire.Some? then chaineAleatoire.value else "undefined"
    }
  }

  /** The table `suivis`: its own properties, token to record. */
  type Suivis = map<string, Record>

  /** The two properties a post under ProtoKey assigns on Object.prototype
      (None: never assigned, or assigned a missing value). Every request body
      and every table lookup inherits them. */
  datatype Prototype = Prototype(dateFinReelle: Option<string>, statut: Option<string>)

  /** What the handler depends on: the table's own entries and the properties
      it has put on Object.prototype (none at start-up). */
  datatype State = State(suivis: Suivis, proto: Prototype)

  const Pristine: Prototype := Prototype(None, None)

  /** JavaScript truthiness of an optional string: missing and "" are falsy. */
  predicate Truthy(s: Option<string>)
  {
    s.Some? && s.value != ""
  }

  /** `k` is not an own entry but the table inherits a truthy value under it. */
  predicate Inherits(s: State, k: string)
  {
    && k !in s.suivis
    && (|| k in InheritedNames
        || (k == "Statut" && Truthy(s.proto.statut))
        || (k == "DateFinReelle" && Truthy(s.proto.dateFinReelle)))
  }

  /** `suivis[k]` is truthy: an own record, or an inherited value. */
  predicate Found(s: State, k: string)
  {
    k in s.suivis || Inherits(s, k)
  }

  /** The status a second event leaves: the one sent, or Echec when it is
      missing or empty. */
  function Completed(s: Option<string>): (r: string)
    ensures r != ""
    ensures Truthy(s) ==> r == s.value
    ensures !Truthy(s) ==> r == Echec
  {
    if Truthy(s) then s.value else Echec
  }

  /** A property read on the request body: its own value when the body has
      the field, otherwise the value the body inherits. */
  function Read(own: Option<string>, inherited: Option<string>): (v: Option<string>)
  {
    if own.Some? then own else inherited
  }

  /** The state after the POST handler has applied `ev` to `s`. The end date
      and the status are those the destructuring of the body reads: a field
      the body lacks yields the value on Object.prototype. */
  function Submitted(s: State, ev: Event): (r: State)
    // keys: none removed, at most the event's own added
    ensures s.suivis.Keys <= r.suivis.Keys <= s.suivis.Keys + {ev.Key()}
    ensures ev.Key() !in r.suivis <==> Inherits(s, ev.Key())
    // every other entry is left as it was
    ensures forall id :: id in s.suivis && id != ev.Key() ==> r.suivis[id] == s.suivis[id]
    // first event for a token: a fresh record, in progress whatever was sent
    ensures !Found(s, ev.Key()) ==>
      r.suivis[ev.Key()] == Record(ev.nomDuPoste, ev.dateDebut, ev.dateFinTheorique, None, EnCours)
    // later event: end date and status replaced by those read from the body,
    // creation fields kept
    ensures ev.Key() in s.suivis ==>
      && r.suivis[ev.Key()].Creation() == s.suivis[ev.Key()].Creation()
      && r.suivis[ev.Key()].dateFinReelle == (if ev.dateFinReelle.Some? then ev.dateFinReelle else s.proto.dateFinReelle)
      && r.suivis[ev.Key()].statut == Completed(if ev.statut.Some? then ev.statut else s.proto.statut)
    // an inherited value: the assignments land on it and the table is unchanged
    ensures Inherits(s, ev.Key()) ==> r.suivis == s.suivis
    // only Object.prototype itself remembers them: it gets the end date read
    // from the body and a status that is never empty
    ensures Inherits(s, ev.Key()) && ev.Key() == ProtoKey ==>
      && r.proto.dateFinReelle == (if ev.dateFinReelle.Some? then ev.dateFinReelle else s.proto.dateFinReelle)
      && r.proto.statut == Some(Completed(if ev.statut.Some? then ev.statut else s.proto.statut))
      && Truthy(r.proto.statut)
    ensures !(Inherits(s, ev.Key()) && ev.Key() == ProtoKey) ==> r.proto == s.proto
  {
    var k := ev.Key();
    var dateFinReelle := Read(ev.dateFinReelle, s.proto.dateFinReelle);
    var statut := Read(ev.statut, s.proto.statut);
    if !Found(s, k) then
      s.(suivis := s.suivis[k := Record(ev.nomDuPoste, ev.dateDebut, ev.dateFinTheorique, None, EnCours)])
    else if k in s.suivis then
      s.(suivis := s.suivis[k := s.suivis[k].(dateFinReelle := dateFinReelle, statut := Completed(statut))])
    else if k == ProtoKey then
      s.(proto := Prototype(dateFinReelle, Some(Completed(statut))))
    else
      s
  }

  /** A record the sweep at `now` fails: still in progress and its expected end
      strictly before `now` (an unparseable date compares false). */
  predicate Overdue(rec: Record, now: int)
  {
    rec.statut == EnCours && rec.dateFinTheorique.Some? && rec.dateFinTheorique.value < now
  }

  function Expire(rec: Record, now: int): (r: Record)
  {
    if Overdue(rec, now) then rec.(statut := Echec) else rec
  }

  /** The table after one sweep at `now`. */
  function Swept(m: Suivis, now: int): (r: Suivis)
    ensures r.Keys == m.Keys
    ensures forall id :: id in m && Overdue(m[id], now) ==> r[id] == m[id].(statut := Echec)
    ensures forall id :: id in m && !Overdue(m[id], now) ==> r[id] == m[id]
    ensures forall id :: id in r ==> !Overdue(r[id], now)
  {
    map id | id in m :: Expire(m[id], now)
  }

  /** A second sweep at the same instant changes nothing. */
  lemma SweptIdempotent(m: Suivis, now: int)
    ensures Swept(Swept(m, now), now) == Swept(m, now)
  {
  }

  /** Sweeping at `t1` and then at a later `t2` is the same as sweeping at `t2`
      alone: an earlier sweep never decides anything a later one would not. */
  lemma SweptLater(m: Suivis, t1: int, t2: int)
    requires t1 <= t2
    ensures Swept(Swept(m, t1), t2) == Swept(m, t2)
  {
  }

  /** One thing that happens to the state: a posted event or a sweep tick. */
  datatype Step = Post(ev: Event) | Tick(now: int)

  function Apply(s: State, step: Step): (r: State)
  {
    match step
    case Post(ev) => Submitted(s, ev)
    case Tick(now) => s.(suivis := Swept(s.suivis, now))
  }

  /** The state after the steps, in order. */
  function Run(s: State, steps: seq<Step>): (r: State)
    decreases |steps|
  {
    if steps == [] then s else Run(Apply(s, steps[0]), steps[1..])
  }

  /** The keys the posted events select. */
  function PostedKeys(steps: seq<Step>): (keys: set<string>)
    decreases |steps|
  {
    if steps == [] then {}
    else (if steps[0].Post? then {steps[0].ev.Key()} else {}) + PostedKeys(steps[1..])
  }

  /** The non-empty statuses the posted events carry. */
  function PostedStatuts(steps: seq<Step>): (statuts: set<string>)
    decreases |steps|
  {
    if steps == [] then {}
    else
      var here := if steps[0].Post? && Truthy(steps[0].ev.statut) then {steps[0].ev.statut.value} else {};
      here + PostedStatuts(steps[1..])
  }

  /** No record is ever deleted, and the name, start and expected end of a
      record never change once it exists. */
  lemma {:induction false} RunKeepsRecords(s: State, steps: seq<Step>)
    ensures s.suivis.Keys <= Run(s, steps).suivis.Keys
    ensures forall id :: id in s.suivis ==> Run(s, steps).suivis[id].Creation() == s.suivis[id].Creation()
    decreases |steps|
  {
    if steps != [] {
      RunKeepsRecords(Apply(s, steps[0]), steps[1..]);
    }
  }

  /** Every key of the table was there at the start or was selected by a
      posted event. */
  lemma {:induction false} RunKeysArePosted(s: State, steps: seq<Step>)
    ensures Run(s, steps).suivis.Keys <= s.suivis.Keys + PostedKeys(steps)
    decreases |steps|
  {
    if steps != [] {
      RunKeysArePosted(Apply(s, steps[0]), steps[1..]);
    }
  }

  /** The statuses a run can produce from nothing but its inputs: EnCours,
      Echec, a non-empty status some posted event sent, and the status already
      on Object.prototype. */
  function StatutSources(s: State, steps: seq<Step>): (sources: set<string>)
  {
    {EnCours, Echec} + PostedStatuts(steps) + (if s.proto.statut.Some? then {s.proto.statut.value} else {})
  }

  /** Statuses come from nowhere else: a record's status, and the one on
      Object.prototype, is the one it started with or one of StatutSources. */
  lemma {:induction false} RunStatutsFromInputs(s: State, steps: seq<Step>, id: string)
    ensures id in Run(s, steps).suivis ==>
      Run(s, steps).suivis[id].statut in StatutSources(s, steps) + (if id in s.suivis then {s.suivis[id].statut} else {})
    ensures Run(s, steps).proto.statut.Some? ==> Run(s, steps).proto.statut.value in StatutSources(s, steps)
    decreases |steps|
  {
    if steps != [] {
      var s' := Apply(s, steps[0]);
      RunStatutsFromInputs(s', steps[1..], id);
      assert PostedStatuts(steps[1..]) <= PostedStatuts(steps);
      assert s'.proto.statut.Some? ==> s'.proto.statut.value in StatutSources(s, steps);
      assert id in s'.suivis ==> s'.suivis[id].statut in StatutSources(s, steps) + (if id in s.suivis then {s.suivis[id].statut} else {});
    }
  }

  /** Object.prototype changes only through posts under ProtoKey, and once it
      has a status it keeps a non-empty one. */
  lemma {:induction false} RunProtoOnlyViaProtoKey(s: State, steps: seq<Step>)
    ensures ProtoKey !in PostedKeys(steps) ==> Run(s, steps).proto == s.proto
    ensures Truthy(s.proto.statut) ==> Truthy(Run(s, steps).proto.statut)
    decreases |steps|
  {
    if steps != [] {
      RunProtoOnlyViaProtoKey(Apply(s, steps[0]), steps[1..]);
    }
  }

  /** A job is opened, then closed with a status of its own: the second event
      keeps the name and records the end date and the status sent. */
  lemma ScenarioOpenThenClose()
    ensures
      var s1 := Submitted(State(map[], Pristine), Event(Some("abc"), Some("P1"), Some("T0"), Some(600000), None, Some("Succès")));
      var s2 := Submitted(s1, Event(Some("abc"), None, None, None, Some("T5"), Some("Succès")));
      && s1.suivis["abc"].statut == EnCours
      && s2.suivis["abc"].statut == "Succès"
      && s2.suivis["abc"].dateFinReelle == Some("T5")
      && s2.suivis["abc"].nomDuPoste == Some("P1")
  {
  }

  /** A job whose expected end has passed and that never reports back is
      failed by the next tick; a missing token files it under "undefined". */
  lemma ScenarioTimeout()
    ensures
      var s := Run(State(map[], Pristine), [Post(Event(None, Some("P2"), None, Some(0), None, None)), Tick(60000)]);
      "undefined" in s.suivis && s.suivis["undefined"].statut == Echec
  {
  }

  /** After a post under "__proto__", Object.prototype.Statut is a non-empty
      string, so a first post under the token "Statut" finds it and creates
      nothing. */
  lemma ScenarioProtoShadowsStatut()
    ensures
      var s1 := Submitted(State(map[], Pristine), Event(Some("__proto__"), None, None, None, None, Some("X")));
      var s2 := Submitted(s1, Event(Some("Statut"), Some("P"), None, None, None, None));
      && s1.suivis == map[]
      && s2.suivis == map[]
  {
  }

  /** After a post under "__proto__" sent an end date and a status, a body
      that lacks both reads them from Object.prototype: the record gets them. */
  lemma ScenarioProtoFillsMissingFields()
    ensures
      var s1 := Submitted(State(map[], Pristine), Event(Some("abc"), Some("P"), None, None, None, None));
      var s2 := Submitted(s1, Event(Some("__proto__"), None, None, None, Some("D"), Some("X")));
      var s3 := Submitted(s2, Event(Some("abc"), None, None, None, None, None));
      && s3.suivis["abc"].statut == "X"
      && s3.suivis["abc"].dateFinReelle == Some("D")
  {
  }

  /** A second post under "__proto__" without an end date reads back the one
      already there, so a first post under "DateFinReelle" still finds it. */
  lemma ScenarioProtoKeepsDate()
    ensures
      var s1 := Submitted(State(map[], Pristine), Event(Some("__proto__"), None, None, None, Some("D"), None));
      var s2 := Submitted(s1, Event(Some("__proto__"), None, None, None, None, None));
      var s3 := Submitted(s2, Event(Some("DateFinReelle"), Some("P"), None, None, None, None));
      && s2.proto.dateFinReelle == Some("D")
      && s3.suivis == map[]
  {
  }
}
