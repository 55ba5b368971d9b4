/** The server's state as the program keeps it: one table `suivis`, changed in
    place by the POST handler and by the periodic sweep, and written out whole
    to data.json after each of them. */
module Server {
  import opened Wrappers
  import opened Suivi

  /** What the POST handler answers. */
  datatype Response = Response(code: int, status: string, message: string)

  /** The one answer the handler ever gives. */
  const Ack: Response := Response(200, "Success", "Requête traitée avec succès")

  class Store {
    /** The table, token to record. */
    var suivis: Suivis
    /** The end date and status posts under "__proto__" have put on
        Object.prototype. */
    var proto: Prototype
    /** The last table this process wrote to data.json (None: none written yet). */
    var written: Option<Suivis>

    /** Start-up: `loaded` is what reading data.json gave (None: the file is
        missing, unreadable or not JSON); a failed read starts from an empty
        table and is never an error. */
    constructor (loaded: Option<Suivis>)
      ensures suivis == (if loaded.Some? then loaded.value else map[])
      ensures proto == Pristine
      ensures written == None
    {
      suivis := if loaded.Some? then loaded.value else map[];
      proto := Pristine;
      written := None;
    }

    /** The POST /api/data handler: applies `ev` to the table in place, writes
        the whole table out and always acknowledges success. */
    method Submit(ev: Event) returns (res: Response)
      modifies this
      ensures State(suivis, proto) == Submitted(old(State(suivis, proto)), ev)
      ensures written == Some(suivis)
      ensures res == Ack
    {
      var k := ev.Key();
      // the destructuring of the body: a missing field reads Object.prototype
      var dateFinReelle := Read(ev.dateFinReelle, proto.dateFinReelle);
      var statut := Read(ev.statut, proto.statut);
      if !Found(State(suivis, proto), k) {
        suivis := suivis[k := Record(ev.nomDuPoste, ev.dateDebut, ev.dateFinTheorique, None, EnCours)];
      } else if k in suivis {
        var rec := suivis[k];
        rec := rec.(dateFinReelle := dateFinReelle);
        rec := rec.(statut := Completed(statut));
        suivis := suivis[k := rec];
      } else if k == ProtoKey {
        // the assignments land on Object.prototype itself
        proto := proto.(dateFinReelle := dateFinReelle);
        proto := proto.(statut := Some(Completed(statut)));
      }
      // otherwise `suivis[k]` is an inherited function or a primitive string:
      // the assignments land on that value, or are dropped, and no lookup on
      // the table changes
      written := Some(suivis);
      res := Ack;
    }

    /** One tick of the periodic check at instant `now`: every record still in
        progress whose expected end is before `now` is failed, one key at a
        time in no particular order, then the whole table is written out. */
    method Sweep(now: int)
      modifies this
      ensures suivis == Swept(old(suivis), now)
      ensures proto == old(proto)
      ensures written == Some(suivis)
    {
      ghost var before := suivis;
      var ids := suivis.Keys;
      while ids != {}
        invariant ids <= before.Keys
        invariant suivis.Keys == before.Keys
        invariant proto == old(proto)
        invariant forall id :: id in ids ==> suivis[id] == before[id]
        invariant forall id :: id in before && id !in ids ==> suivis[id] == Expire(before[id], now)
        decreases ids
      {
        var id :| id in ids;
        var rec := suivis[id];
        if Overdue(rec, now) {
          suivis := suivis[id := rec.(statut := Echec)];
        }
        ids := ids - {id};
      }
      written := Some(suivis);
    }
  }
}
