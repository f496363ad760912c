/**
  The well-being handlers (server/routes/wellbeingRoutes.js) over the
  `WellBeingLogs` table: create stamps the caller and today's date, with no
  uniqueness rule; the listing is the caller's logs, newest first.
*/
module WellbeingRoutes {
  import opened Common
  import opened AuthMiddleware
  import Tables

  /** A row of `WellBeingLogs` (server/models/WellBeingLog.js), with the `createdAt` timestamp the table keeps. */
  datatype WellBeingLog = WellBeingLog(
    userId: int,
    mood: Option<string>,
    stressLevel: Option<string>,
    sleepHours: Option<real>,
    date: Day,
    createdAt: int)

  /** The body a client may send; only mood, stressLevel and sleepDuration are read. */
  datatype WellbeingBody = WellbeingBody(
    mood: Option<string>,
    stressLevel: Option<string>,
    sleepDuration: Option<real>,
    date: Option<Day>,
    sleepHours: Option<real>)

  class WellbeingStore {
    var logs: map<int, WellBeingLog>
    var nextLogId: int

    ghost predicate Valid()
      reads this
    {
      1 <= nextLogId && forall id :: id in logs ==> 1 <= id < nextLogId
    }

    constructor ()
      ensures Valid() && logs == map[]
    {
      logs := map[];
      nextLogId := 1;
    }

    /**
      POST /wellbeing-log at time `now` (milliseconds): one new row for the
      caller, sleepHours taken from sleepDuration and the date from the
      clock, whatever date the body carries.
    */
    method Create(authorization: Option<string>, verify: Verifier, body: WellbeingBody, now: int)
      returns (status: Status, created: Option<(int, WellBeingLog)>)
      requires Valid()
      modifies this
      ensures Valid()
      ensures var a := Authenticate(authorization, verify);
        if !a.Authenticated? then
          status == a.Status() && created.None? && logs == old(logs) && nextLogId == old(nextLogId)
        else
          && status == 201 && created.Some?
          && created.value.0 !in old(logs)
          && created.value.1 == WellBeingLog(a.user.userId, body.mood, body.stressLevel,
                                             body.sleepDuration, DayOf(now), now)
          && logs == old(logs)[created.value.0 := created.value.1]
          && |logs| == |old(logs)| + 1
    {
      var auth := Authenticate(authorization, verify);
      if !auth.Authenticated? {
        return auth.Status(), None;
      }
      var today := DayOf(now);
      var log := WellBeingLog(auth.user.userId, body.mood, body.stressLevel, body.sleepDuration, today, now);
      var id := nextLogId;
      logs := logs[id := log];
      nextLogId := nextLogId + 1;
      status, created := 201, Some((id, log));
    }

    /** GET /wellbeing-log: the caller's logs, latest createdAt first. */
    method List(authorization: Option<string>, verify: Verifier)
      returns (status: Status, rows: seq<(int, WellBeingLog)>)
      requires Valid()
      ensures var a := Authenticate(authorization, verify);
        if !a.Authenticated? then status == a.Status() && rows == []
        else
          && status == 200
          && (forall e :: e in rows <==> e.0 in logs && logs[e.0] == e.1 && e.1.userId == a.user.userId)
          && Tables.SortedDesc(rows, (log: WellBeingLog) => log.createdAt)
          && Tables.DistinctIds(rows)
    {
      var auth := Authenticate(authorization, verify);
      if !auth.Authenticated? {
        return auth.Status(), [];
      }
      var userId := auth.user.userId;
      rows := Tables.Ordered(logs, nextLogId, (log: WellBeingLog) => log.userId == userId,
                             (log: WellBeingLog) => log.createdAt);
      status := 200;
    }
  }
}
