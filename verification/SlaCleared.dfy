/** A run in which a clock that goes back lets an assignment take a flag away. */
module SlaCleared {
  import opened Common
  import opened Database
  import opened Sla
  import Incidents

  /** One incident, and the sweeps under way. */
  ghost predicate Scene(s: Watch, clock: Time, i: Incidents.Incident, sweeps: map<nat, Sweep>) {
    && s.clock == clock && s.sweeps == sweeps
    && s.db.incidents == map[i.id := i] && s.db.incidentByIssue == map[i.issueId := i.id]
  }

  /** Reported at 1 and not flagged. */
  predicate Reported(i: Incidents.Incident) {
    i.status == Incidents.Reported && i.reportedAt == 1 && !i.breached && i.issueId != ""
  }

  lemma SweepStarts(sla: Time, i: Incidents.Incident) returns (trace: seq<Watch>)
    requires Reported(i)
    ensures IsRun(sla, trace) && Scene(Last(trace), sla + 2, i, map[0 := Opened(sla + 2)])
  {
    var db := Db(map[], map[], map[], map[], map[], map[], map[], map[], map[], map[]);
    trace := [Watch(db, 0, map[], 0, {})];
    trace := Extended(sla, trace, Report(i));
    trace := Extended(sla, trace, Clock(sla + 2));
    trace := Extended(sla, trace, Open(0));
  }

  lemma SweepFlags(sla: Time, trace: seq<Watch>, i: Incidents.Incident) returns (longer: seq<Watch>)
    requires IsRun(sla, trace) && Reported(i) && Scene(Last(trace), sla + 2, i, map[0 := Opened(sla + 2)])
    ensures IsRun(sla, longer) && 0 in Last(longer).sweeps
    ensures Scene(Last(longer), sla + 2, i.(breached := true), Last(longer).sweeps)
  {
    assert IsOpenList(Last(trace).db, [i]);
    longer := Extended(sla, trace, TakeList(0, [i]));
    assert Scene(Last(longer), sla + 2, i, map[0 := Walking(sla + 2, [i], 0, 0)]);
    longer := Extended(sla, longer, Visit(0));
  }

  /** The monitor flags the incident; the clock goes back; the assignment finds itself in time. */
  lemma FlagCleared(sla: Time, i: Incidents.Incident, handler: string) returns (trace: seq<Watch>, n: nat)
    requires 0 <= sla && Reported(i) && handler != ""
    ensures IsRun(sla, trace) && n < |trace|
    ensures i.id in trace[n].db.incidents && trace[n].db.incidents[i.id].breached
    ensures i.id in Last(trace).db.incidents && !Last(trace).db.incidents[i.id].breached
  {
    trace := SweepStarts(sla, i);
    trace := SweepFlags(sla, trace, i);
    n := |trace| - 1;
    var back := Extended(sla, trace, Clock(1));
    trace := Extended(sla, back, Mutate(i.id, Assigning(handler, sla)));
  }
}
