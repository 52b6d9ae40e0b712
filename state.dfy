/**
 * The record of one executed step (model/State.js): created PENDING with its
 * start time, closed by `updateStatus`, annotated by `setOtherInfo`, and
 * published through its `json` view.
 */
module States {
  import opened Wrappers
  import opened Strs
  import Json
  import Enums

  /** The `json` view of a State: the fields it publishes, in order. */
  datatype StateRecord = StateRecord(
    startedAt: int,
    stepName: string,
    stepType: string,
    resourceMonitor: string,
    status: string,
    endedAt: Option<int>,
    elapsed: Option<string>,
    others: Json.Fields,
    reason: Json.Value)

  /** The record as the JavaScript object it is written out as. */
  function RecordJson(r: StateRecord): (o: Json.Fields)
    ensures !Json.HasKey(o, "nextStep")
  {
    [("startedAt", Json.Num(r.startedAt)),
     ("stepName", Json.Str(r.stepName)),
     ("type", Json.Str(r.stepType)),
     ("resourceMonitor", Json.Str(r.resourceMonitor)),
     ("status", Json.Str(r.status)),
     ("endedAt", match r.endedAt case Some(t) => Json.Num(t) case None => Json.Null),
     ("elapsed", match r.elapsed case Some(e) => Json.Str(e) case None => Json.Null),
     ("others", Json.Obj(r.others)),
     ("reason", r.reason)]
  }

  /** The `elapsed` text: the difference in milliseconds followed by " ms". */
  function ElapsedText(startedAt: int, endedAt: int): (r: string)
    ensures |r| > 3 && r[|r| - 3..] == " ms"
    ensures endedAt >= startedAt ==>
      AllDigits(r[..|r| - 3]) && DigitsValue(r[..|r| - 3]) == endedAt - startedAt
  {
    var r := IntToString(endedAt - startedAt) + " ms";
    assert r[..|r| - 3] == IntToString(endedAt - startedAt);
    r
  }

  class State {
    const stepName: string
    const nextStep: string
    const stepType: string
    const resourceMonitor: string
    var status: string
    var reason: Json.Value
    var startedAt: int
    var endedAt: Option<int>
    var elapsed: Option<string>
    var otherInfo: Json.Fields

    /** `new State({stepName, nextStep, type, resourceMonitor})` at clock reading `now`. */
    constructor (stepName: string, nextStep: string, stepType: string, resourceMonitor: string, now: int)
      ensures this.stepName == stepName && this.nextStep == nextStep
      ensures this.stepType == stepType && this.resourceMonitor == resourceMonitor
      ensures status == Enums.Pending && reason == Json.Str("")
      ensures startedAt == now && endedAt == None && elapsed == None
      ensures otherInfo == []
    {
      this.stepName := stepName;
      this.nextStep := nextStep;
      this.stepType := stepType;
      this.resourceMonitor := resourceMonitor;
      status := Enums.Pending;
      reason := Json.Str("");
      startedAt := now;
      endedAt := None;
      elapsed := None;
      otherInfo := [];
    }

    /** `updateStatus(status, reason)`: sets both and always closes the state. */
    method UpdateStatus(newStatus: string, newReason: Json.Value, now: int)
      modifies this
      ensures status == newStatus && reason == newReason
      ensures endedAt == Some(now) && elapsed == Some(ElapsedText(startedAt, now))
      ensures startedAt == old(startedAt) && otherInfo == old(otherInfo)
    {
      status := newStatus;
      reason := newReason;
      SetEnd(now);
    }

    /** `setEnd()`: records the end time and the elapsed milliseconds. */
    method SetEnd(now: int)
      modifies this
      ensures endedAt == Some(now) && elapsed == Some(ElapsedText(startedAt, now))
      ensures status == old(status) && reason == old(reason)
      ensures startedAt == old(startedAt) && otherInfo == old(otherInfo)
    {
      endedAt := Some(now);
      elapsed := Some(ElapsedText(startedAt, now));
    }

    /** `setOtherInfo(key, data)`: only the given key of `others` changes. */
    method SetOtherInfo(key: string, data: Json.Value)
      modifies this
      ensures otherInfo == Json.Set(old(otherInfo), key, data)
      ensures Json.Lookup(otherInfo, key) == Some(data)
      ensures forall k :: k != key ==> Json.Lookup(otherInfo, k) == Json.Lookup(old(otherInfo), k)
      ensures status == old(status) && reason == old(reason)
      ensures startedAt == old(startedAt) && endedAt == old(endedAt) && elapsed == old(elapsed)
    {
      Json.LookupSetSame(otherInfo, key, data);
      forall k | k != key ensures Json.Lookup(Json.Set(otherInfo, key, data), k) == Json.Lookup(otherInfo, k) {
        Json.LookupSetOther(otherInfo, key, data, k);
      }
      otherInfo := Json.Set(otherInfo, key, data);
    }

    /** The `json` getter. */
    function JsonRecord(): (r: StateRecord)
      reads this
      ensures r.stepName == stepName && r.status == status && r.reason == reason
      ensures r.startedAt == startedAt && r.endedAt == endedAt && r.others == otherInfo
      ensures r.stepType == stepType && r.resourceMonitor == resourceMonitor && r.elapsed == elapsed
    {
      StateRecord(startedAt, stepName, stepType, resourceMonitor, status, endedAt, elapsed, otherInfo, reason)
    }
  }
}
