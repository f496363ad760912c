/**
  The "Log Mood & Sleep" screen (client/app/lifestyle/add-wellbeing-log.tsx):
  the stress band shown for the slider value, and the submit handler that
  validates the form and posts mood, band and sleep hours.
*/
module AddWellbeingLog {
  import opened Common
  import ClientRequest
  import AuthMiddleware
  import WellbeingRoutes

  /** `getStressLevelLabel`: the band of a slider value. */
  function StressLevelLabel(value: int): (band: string)
    ensures band == "Low" <==> value <= 3
    ensures band == "Moderate" <==> 4 <= value <= 6
    ensures band == "High" <==> 7 <= value
  {
    if value <= 3 then "Low"
    else if value <= 6 then "Moderate"
    else "High"
  }

  /** The order of the three bands, lowest first. */
  function BandRank(band: string): nat {
    if band == "Low" then 0 else if band == "Moderate" then 1 else 2
  }

  /** A larger slider value never falls in a lower band. */
  lemma StressLevelLabelMonotone(a: int, b: int)
    requires a <= b
    ensures BandRank(StressLevelLabel(a)) <= BandRank(StressLevelLabel(b))
  {
  }

  /** `parseFloat`; None stands for NaN, which the JSON body carries as null. */
  type FloatParser = string -> Option<real>

  /** The JSON body `handleSubmit` posts to /wellbeing-log. */
  datatype WellbeingPayload = WellbeingPayload(mood: string, stressLevel: string, sleepDuration: Option<real>)

  /**
    What `handleSubmit` sends for the given form state: nothing when mood
    or sleep duration is empty, otherwise the mood, the band label of the
    stress value and the parsed sleep duration.
  */
  function SubmitPayload(mood: string, stressLevel: int, sleepDuration: string, parseFloat: FloatParser)
    : (p: Option<WellbeingPayload>)
    ensures p.None? <==> mood == "" || sleepDuration == ""
    ensures p.Some? ==> p.value.mood == mood && p.value.mood != ""
    ensures p.Some? ==> p.value.stressLevel == StressLevelLabel(stressLevel)
    ensures p.Some? ==> p.value.sleepDuration == parseFloat(sleepDuration)
  {
    if mood == "" || sleepDuration == "" then None
    else Some(WellbeingPayload(mood, StressLevelLabel(stressLevel), parseFloat(sleepDuration)))
  }

  /** The stress level that is sent is always one of the three labels, never the number. */
  lemma SubmittedStressIsBand(mood: string, stressLevel: int, sleepDuration: string, parseFloat: FloatParser)
    requires SubmitPayload(mood, stressLevel, sleepDuration, parseFloat).Some?
    ensures SubmitPayload(mood, stressLevel, sleepDuration, parseFloat).value.stressLevel
              in {"Low", "Moderate", "High"}
  {
  }

  /** The payload as the well-being route reads it: no date and no sleepHours key. */
  function ServerBody(p: WellbeingPayload): WellbeingRoutes.WellbeingBody {
    WellbeingRoutes.WellbeingBody(Some(p.mood), Some(p.stressLevel), p.sleepDuration, None, None)
  }

  /**
    The screen's state, with the requests it has posted (header and body)
    and the titles of the alerts it has shown.
  */
  class WellbeingForm {
    var mood: string
    var stressLevel: int
    var sleepDuration: string
    var requests: seq<(string, WellbeingPayload)>
    var alerts: seq<string>

    /** The initial state: no mood, the slider at 5, no sleep duration. */
    constructor ()
      ensures mood == "" && stressLevel == 5 && sleepDuration == ""
      ensures requests == [] && alerts == []
    {
      mood := "";
      stressLevel := 5;
      sleepDuration := "";
      requests := [];
      alerts := [];
    }

    /**
      `handleSubmit`, with the stored token, `parseFloat`, and whether the
      post succeeded as parameters. An incomplete form shows a validation
      alert and posts nothing; otherwise one request is posted and the
      alert reports its outcome.
    */
    method HandleSubmit(token: Option<string>, parseFloat: FloatParser, delivered: bool)
      returns (payload: Option<WellbeingPayload>)
      modifies this`requests, this`alerts
      ensures payload == SubmitPayload(mood, stressLevel, sleepDuration, parseFloat)
      ensures payload.None? ==> requests == old(requests) && alerts == old(alerts) + ["Validation Error"]
      ensures payload.Some? ==>
                && requests == old(requests) + [(ClientRequest.BearerHeader(token), payload.value)]
                && alerts == old(alerts) + [if delivered then "Success" else "Error"]
    {
      if mood == "" || sleepDuration == "" {
        alerts := alerts + ["Validation Error"];
        return None;
      }
      var body := WellbeingPayload(mood, StressLevelLabel(stressLevel), parseFloat(sleepDuration));
      requests := requests + [(ClientRequest.BearerHeader(token), body)];
      alerts := alerts + [if delivered then "Success" else "Error"];
      payload := Some(body);
    }
  }

  /** Submitting the screen as it opens posts nothing: no mood has been picked. */
  method SubmitUntouchedForm(token: Option<string>, parseFloat: FloatParser, delivered: bool)
    returns (payload: Option<WellbeingPayload>, alerts: seq<string>)
    ensures payload.None? && alerts == ["Validation Error"]
  {
    var form := new WellbeingForm();
    payload := form.HandleSubmit(token, parseFloat, delivered);
    alerts := form.alerts;
  }

  /**
    A form filled in and submitted by a signed-in user at time `now`, its
    request handled by POST /wellbeing-log on an empty table: an incomplete
    form creates nothing; otherwise the log stores the mood, the band of
    the slider value, the parsed sleep duration as `sleepHours`, and the
    UTC day of `now`; the route reads no date from the body.
  */
  method SubmitReachesServer(mood: string, stressLevel: int, sleepDuration: string, parseFloat: FloatParser,
                             now: int, token: string, claims: AuthMiddleware.Claims,
                             verify: AuthMiddleware.Verifier)
    returns (created: Option<(int, WellbeingRoutes.WellBeingLog)>)
    requires token != "" && ' ' !in token
    requires verify(token) == Some(claims)
    ensures created.None? <==> mood == "" || sleepDuration == ""
    ensures created.Some? ==>
              created.value.1 == WellbeingRoutes.WellBeingLog(claims.userId, Some(mood), Some(StressLevelLabel(stressLevel)),
                                                               parseFloat(sleepDuration), DayOf(now), now)
  {
    var form := new WellbeingForm();
    form.mood := mood;
    form.stressLevel := stressLevel;
    form.sleepDuration := sleepDuration;
    var payload := form.HandleSubmit(Some(token), parseFloat, true);
    if payload.None? {
      return None;
    }
    var header := form.requests[0].0;
    ClientRequest.StoredTokenAuthenticates(token, claims, verify);
    var store := new WellbeingRoutes.WellbeingStore();
    var status;
    status, created := store.Create(Some(header), verify, ServerBody(payload.value), now);
  }
}
