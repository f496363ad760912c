/**
  The diet-log handlers (server/routes/dietRoutes.js) over the `DietLogs`
  table. POST keeps one log per user and day; PUT and DELETE find the row
  by id alone, whoever owns it.
*/
module DietRoutes {
  import opened Common
  import opened AuthMiddleware
  import Tables

  /** A row of `DietLogs` (server/models/DietLog.js). */
  datatype DietLog = DietLog(
    userId: int,
    date: Day,
    meals: Option<Json>,
    snacks: Option<string>,
    waterIntake: Option<int>)

  /** The keys POST /diet-log destructures from the body. */
  datatype DietBody = DietBody(
    date: Option<Day>,
    meals: Option<Json>,
    snacks: Option<string>,
    waterIntake: Option<int>)

  /** A body merged by PUT /diet-log/:logId: every column key it carries, `userId` and `date` included. */
  datatype DietPatch = DietPatch(
    userId: Field<int>,
    date: Field<Day>,
    meals: Field<Json>,
    snacks: Field<string>,
    waterIntake: Field<int>)
  {
    /** The body sets a NOT NULL column (`userId`, `date`) to null, which validation refuses. */
    predicate NullsRequired() {
      userId.Null? || date.Null?
    }
  }

  /**
    `log` after `log.update(req.body)`: each key the body carries
    overwrites its column, a null clearing it; a null for a NOT NULL
    column fails validation and there is no updated row.
  */
  function MergeDiet(log: DietLog, patch: DietPatch): (r: Option<DietLog>)
    ensures r.None? <==> patch.NullsRequired()
  {
    if patch.NullsRequired() then None
    else Some(DietLog(
      patch.userId.ApplyToRequired(log.userId),
      patch.date.ApplyToRequired(log.date),
      patch.meals.ApplyTo(log.meals),
      patch.snacks.ApplyTo(log.snacks),
      patch.waterIntake.ApplyTo(log.waterIntake)))
  }

  /**
    A null waterIntake clears the column, as when the edit screen sends
    `parseInt` of an empty field, NaN, which JSON carries as null.
  */
  lemma MergeDietNullClearsWater(log: DietLog, patch: DietPatch)
    requires !patch.NullsRequired() && patch.waterIntake.Null?
    ensures MergeDiet(log, patch).value.waterIntake.None?
  {
  }

  /** A body that carries no column changes nothing. */
  lemma MergeDietEmpty(log: DietLog)
    ensures MergeDiet(log, DietPatch(Absent, Absent, Absent, Absent, Absent)) == Some(log)
  {
  }

  /** Some log of `logs` is the given user's log for the given day. */
  predicate LoggedOn(logs: map<int, DietLog>, userId: int, date: Day) {
    exists id :: id in logs && logs[id].userId == userId && logs[id].date == date
  }

  /** At most one log per (userId, date). */
  ghost predicate OnePerDay(logs: map<int, DietLog>) {
    forall a, b :: a in logs && b in logs && logs[a].userId == logs[b].userId && logs[a].date == logs[b].date ==> a == b
  }

  /** Adding a log for a (user, day) pair not yet logged keeps one log per day. */
  lemma {:induction false} InsertKeepsOnePerDay(logs: map<int, DietLog>, id: int, log: DietLog)
    requires OnePerDay(logs)
    requires id !in logs
    requires !LoggedOn(logs, log.userId, log.date)
    ensures OnePerDay(logs[id := log])
  {
    assert forall other :: other in logs ==> !(logs[other].userId == log.userId && logs[other].date == log.date);
  }

  /** Removing rows never creates two logs for one day. */
  lemma RemoveKeepsOnePerDay(logs: map<int, DietLog>, id: int)
    requires OnePerDay(logs)
    ensures OnePerDay(logs - {id})
  {
  }

  /** PUT checks nothing about the day, so it can give a user two logs for one day. */
  lemma UpdateCanBreakOnePerDay()
    ensures exists logs: map<int, DietLog>, id, patch ::
              && id in logs && OnePerDay(logs) && MergeDiet(logs[id], patch).Some?
              && !OnePerDay(logs[id := MergeDiet(logs[id], patch).value])
  {
    var first := DietLog(7, 100, None, None, None);
    var second := DietLog(7, 101, None, None, None);
    var logs := map[1 := first, 2 := second];
    var patch := DietPatch(Absent, Value(100), Absent, Absent, Absent);
    assert OnePerDay(logs);
    var logs' := logs[2 := MergeDiet(logs[2], patch).value];
    assert logs'[1].userId == logs'[2].userId && logs'[1].date == logs'[2].date;
  }

  class DietStore {
    var logs: map<int, DietLog>
    var nextLogId: int

    ghost predicate Valid()
      reads this
    {
      1 <= nextLogId && forall id :: id in logs ==> 1 <= id < nextLogId
    }

    constructor ()
      ensures Valid() && logs == map[]
    {
      logs := map[];
      nextLogId := 1;
    }

    /** GET /diet-log/:userId: the logs of the user named in the path, whoever the caller is. */
    method ListForUser(authorization: Option<string>, verify: Verifier, userId: int)
      returns (status: Status, rows: map<int, DietLog>)
      ensures var a := Authenticate(authorization, verify);
        if !a.Authenticated? then status == a.Status() && rows == map[]
        else
          && status == 200
          && (forall id :: id in rows <==> id in logs && logs[id].userId == userId)
          && (forall id :: id in rows ==> rows[id] == logs[id])
    {
      var auth := Authenticate(authorization, verify);
      if !auth.Authenticated? {
        return auth.Status(), map[];
      }
      rows := Tables.Select(logs, (log: DietLog) => log.userId == userId);
      status := 200;
    }

    /** GET /diet-log: the caller's logs. */
    method ListMine(authorization: Option<string>, verify: Verifier)
      returns (status: Status, rows: map<int, DietLog>)
      ensures var a := Authenticate(authorization, verify);
        if !a.Authenticated? then status == a.Status() && rows == map[]
        else
          && status == 200
          && (forall id :: id in rows <==> id in logs && logs[id].userId == a.user.userId)
          && (forall id :: id in rows ==> rows[id] == logs[id])
    {
      var auth := Authenticate(authorization, verify);
      if !auth.Authenticated? {
        return auth.Status(), map[];
      }
      var userId := auth.user.userId;
      rows := Tables.Select(logs, (log: DietLog) => log.userId == userId);
      status := 200;
    }

    /**
      POST /diet-log: 409 when the caller already has a log for that day,
      otherwise one new log stamped with the caller's id. A body without a
      date makes the lookup throw, which the handler answers with 400.
    */
    method Create(authorization: Option<string>, verify: Verifier, body: DietBody)
      returns (status: Status, created: Option<(int, DietLog)>)
      requires Valid()
      modifies this
      ensures Valid()
      ensures old(OnePerDay(logs)) ==> OnePerDay(logs)
      ensures var a := Authenticate(authorization, verify);
        if !a.Authenticated? || body.date.None? || old(LoggedOn(logs, a.user.userId, body.date.value)) then
          && status == (if !a.Authenticated? then a.Status() else if body.date.None? then 400 else 409)
          && created.None? && logs == old(logs) && nextLogId == old(nextLogId)
        else
          && status == 201 && created.Some?
          && created.value.0 !in old(logs)
          && created.value.1 == DietLog(a.user.userId, body.date.value, body.meals, body.snacks, body.waterIntake)
          && logs == old(logs)[created.value.0 := created.value.1]
    {
      var auth := Authenticate(authorization, verify);
      if !auth.Authenticated? {
        return auth.Status(), None;
      }
      if body.date.None? {
        return 400, None;
      }
      var userId := auth.user.userId;
      if LoggedOn(logs, userId, body.date.value) {
        return 409, None;
      }
      var log := DietLog(userId, body.date.value, body.meals, body.snacks, body.waterIntake);
      var id := nextLogId;
      ghost var before := logs;
      logs := logs[id := log];
      nextLogId := nextLogId + 1;
      if OnePerDay(before) {
        InsertKeepsOnePerDay(before, id, log);
      }
      status, created := 201, Some((id, log));
    }

    /**
      PUT /diet-log/:logId: 404 iff no row has that id; otherwise merge the
      body, whoever owns the row. A body that nulls `userId` or `date`
      fails validation outside any `try`, leaving the request unanswered.
    */
    method Update(authorization: Option<string>, verify: Verifier, logId: int, patch: DietPatch)
      returns (status: Status, log: Option<DietLog>)
      requires Valid()
      modifies this
      ensures Valid() && nextLogId == old(nextLogId)
      ensures var a := Authenticate(authorization, verify);
        if !a.Authenticated? || logId !in old(logs) then
          && status == (if a.Authenticated? then 404 else a.Status())
          && log.None? && logs == old(logs)
        else if patch.NullsRequired() then
          status == Unanswered && log.None? && logs == old(logs)
        else
          && status == 200
          && log == MergeDiet(old(logs)[logId], patch)
          && logs == old(logs)[logId := log.value]
    {
      var auth := Authenticate(authorization, verify);
      if !auth.Authenticated? {
        return auth.Status(), None;
      }
      if logId !in logs {
        return 404, None;
      }
      if patch.NullsRequired() {
        return Unanswered, None;
      }
      var updated := MergeDiet(logs[logId], patch).value;
      logs := logs[logId := updated];
      status, log := 200, Some(updated);
    }

    /** DELETE /diet-log/:logId: remove the row with that id, whoever owns it; `success` says whether one went. */
    method Delete(authorization: Option<string>, verify: Verifier, logId: int)
      returns (status: Status, success: bool)
      requires Valid()
      modifies this
      ensures Valid() && nextLogId == old(nextLogId)
      ensures old(OnePerDay(logs)) ==> OnePerDay(logs)
      ensures var a := Authenticate(authorization, verify);
        if !a.Authenticated? then status == a.Status() && !success && logs == old(logs)
        else status == 200 && (success <==> logId in old(logs)) && logs == old(logs) - {logId}
    {
      var auth := Authenticate(authorization, verify);
      if !auth.Authenticated? {
        return auth.Status(), false;
      }
      success := logId in logs;
      logs := logs - {logId};
      status := 200;
    }
  }
}
