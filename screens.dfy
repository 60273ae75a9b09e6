/**
 * The prototype's two small state machines: the app's screen flow
 * (setup, then running, then results) and the analysis-phase counter shown
 * while the simulated analysis runs.
 */
module Screens {
  import opened Wrappers

  /** The five analysis stages the running screen steps through. */
  const Stages: seq<string> := [
    "Collecting pulse responses",
    "Extracting themes & patterns",
    "Clustering by dimension",
    "Computing baseline signals",
    "Synthesising narrative"
  ]

  /** The index of the last stage, where the counter stops. */
  const LastStage: int := |Stages| - 1

  /** One timer tick of the phase counter. */
  function Step(phase: int): (next: int)
    ensures phase <= next <= phase + 1
    ensures next == phase <==> LastStage <= phase
  {
    if phase >= LastStage then phase else phase + 1
  }

  /** The phase after `ticks` timer ticks from the initial phase 0. */
  function PhaseAfter(ticks: nat): int
  {
    if ticks == 0 then 0 else Step(PhaseAfter(ticks - 1))
  }

  /** The counter climbs by one per tick and then stays at the last stage. */
  lemma {:induction false} PhaseAfterTicks(ticks: nat)
    ensures PhaseAfter(ticks) == if ticks < LastStage then ticks else LastStage
  {
    if ticks > 0 {
      PhaseAfterTicks(ticks - 1);
    }
  }

  /** "View results" is offered exactly when the counter is at the last stage or beyond. */
  predicate ResultsOffered(phase: int)
    ensures ResultsOffered(phase) ==> Step(phase) == phase
    ensures 0 <= phase ==> (ResultsOffered(phase) <==> Step(phase) == phase)
  {
    phase >= LastStage
  }

  /** Results are offered from the fourth tick on, and never before. */
  lemma ResultsOfferedAfterLastTick(ticks: nat)
    ensures ResultsOffered(PhaseAfter(ticks)) <==> ticks >= LastStage
    ensures 0 <= PhaseAfter(ticks) <= LastStage
  {
    PhaseAfterTicks(ticks);
  }

  /** The running screen's phase counter. */
  class PulseRunning {
    var phase: int
    /** Number of ticks since the screen was mounted. */
    ghost var ticks: nat

    ghost predicate Valid()
      reads this
    {
      phase == PhaseAfter(ticks)
    }

    constructor ()
      ensures Valid() && phase == 0 && ticks == 0
    {
      phase := 0;
      ticks := 0;
    }

    /** The interval callback: advance one stage, or stay at the last one. */
    method Tick()
      requires Valid()
      modifies this
      ensures Valid() && ticks == old(ticks) + 1
      ensures phase == Step(old(phase))
    {
      phase := Step(phase);
      ticks := ticks + 1;
    }

    /** Whether the "View results" button is shown. */
    predicate CanViewResults()
      requires Valid()
      reads this
      ensures CanViewResults() <==> ticks >= LastStage
      ensures CanViewResults() <==> phase == LastStage
    {
      ResultsOfferedAfterLastTick(ticks);
      ResultsOffered(phase)
    }
  }

  /** The organisation entered on the setup screen. */
  datatype Org = Org(orgName: string, orgSize: string, sector: string, context: string)

  datatype Field = OrgName | OrgSize | Sector | Context

  /** The setup form. */
  class OrgSetup {
    var orgName: string
    var orgSize: string
    var sector: string
    var context: string

    constructor ()
      ensures orgName == "" && orgSize == "" && sector == "" && context == ""
      ensures !Ready()
    {
      orgName, orgSize, sector, context := "", "", "", "";
    }

    /** Both required fields are filled: the button is enabled and a click submits. */
    predicate Ready()
      reads this
      ensures Ready() <==> |orgName| > 0 && |context| > 0
    {
      orgName != "" && context != ""
    }

    /** Typing into one field changes that field only. */
    method Edit(field: Field, value: string)
      modifies this
      ensures orgName == (if field == OrgName then value else old(orgName))
      ensures orgSize == (if field == OrgSize then value else old(orgSize))
      ensures sector == (if field == Sector then value else old(sector))
      ensures context == (if field == Context then value else old(context))
    {
      match field
      case OrgName => orgName := value;
      case OrgSize => orgSize := value;
      case Sector => sector := value;
      case Context => context := value;
    }

    /** A click on "Run baseline simulation": the form's contents when the name
        and the context are both non-empty, nothing otherwise. Size and sector
        are optional. */
    method Submit() returns (org: Option<Org>)
      ensures org.Some? <==> Ready()
      ensures org.Some? ==> org.value == Org(orgName, orgSize, sector, context)
    {
      if Ready() {
        org := Some(Org(orgName, orgSize, sector, context));
      } else {
        org := None;
      }
    }
  }

  datatype Screen = Setup | Running | Results

  /** Position of a screen in the flow. */
  function ScreenRank(s: Screen): nat
  {
    match s
    case Setup => 0
    case Running => 1
    case Results => 2
  }

  /** The app: which screen is shown, the organisation entered, and which
      cycle the results screen shows. */
  class LyraPulse {
    var screen: Screen
    var org: Option<Org>
    var showCycle2: bool
    /** The running screen's counter; mounted when setup completes. */
    var run: PulseRunning?

    ghost predicate Valid()
      reads this, run
    {
      && (screen == Setup <==> run == null)
      && (screen == Setup <==> org.None?)
      && (run != null ==> run.Valid())
      && (org.Some? ==> org.value.orgName != "" && org.value.context != "")
      && (screen == Results ==> ResultsOffered(run.phase))
      && (showCycle2 ==> screen == Results)
    }

    constructor ()
      ensures Valid()
      ensures screen == Setup && org == None && !showCycle2
    {
      screen, org, showCycle2, run := Setup, None, false, null;
    }

    /** Setup's button is clicked: with both required fields filled the app
        moves to the running screen with a fresh counter; otherwise nothing happens. */
    method SubmitSetup(form: OrgSetup)
      requires Valid() && screen == Setup
      modifies this
      ensures Valid()
      ensures screen == (if old(form.Ready()) then Running else Setup)
      ensures org == (if old(form.Ready()) then Some(Org(form.orgName, form.orgSize, form.sector, form.context)) else None)
      ensures screen == Running ==> fresh(run) && run.phase == 0
      ensures showCycle2 == old(showCycle2)
      ensures ScreenRank(old(screen)) <= ScreenRank(screen)
    {
      var submitted := form.Submit();
      if submitted.Some? {
        org := submitted;
        run := new PulseRunning();
        screen := Running;
      }
    }

    /** The running screen's timer fires. */
    method Tick()
      requires Valid() && screen == Running
      modifies run
      ensures Valid()
      ensures run.phase == Step(old(run.phase))
      ensures screen == old(screen) && org == old(org)
    {
      run.Tick();
    }

    /** "View results" is clicked; the button exists only once the last stage is reached. */
    method ViewResults()
      requires Valid() && screen == Running
      modifies this
      ensures Valid()
      ensures run == old(run) && org == old(org) && showCycle2 == old(showCycle2)
      ensures screen == (if ResultsOffered(run.phase) then Results else Running)
      ensures ScreenRank(old(screen)) <= ScreenRank(screen)
    {
      if ResultsOffered(run.phase) {
        screen := Results;
      }
    }

    /** The cycle toggle on the results screen, and "Run Cycle 2" (which shows cycle 2). */
    method ShowCycle2(show: bool)
      requires Valid() && screen == Results
      modifies this
      ensures Valid()
      ensures showCycle2 == show
      ensures screen == old(screen) && org == old(org) && run == old(run)
    {
      showCycle2 := show;
    }
  }
}
