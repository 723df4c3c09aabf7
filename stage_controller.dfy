/** The simulator page: one piece of state, the current stage, which starts
    at 1. The page shows the description and the component of the current
    stage, and binds each component's completion callback to that
    component's own stage number s, so that the callback sets the current
    stage to s + 1. Of the four components only stage four ever calls its
    callback (after a 2-second timer); the first three take no callback at
    all. The runs below describe the page's binding for components that do
    call back; `StuckAtStageOne` states what the components as written allow. */
module StageController {

  datatype Option<T> = None | Some(value: T)

  /** The four stage components the page can show. */
  datatype StageComponent = StageOne | StageTwo | StageThree | StageFour {
    function Number(): (n: int)
      ensures 1 <= n <= 4
    {
      match this
      case StageOne => 1
      case StageTwo => 2
      case StageThree => 3
      case StageFour => 4
    }
  }

  /** The four "About This Stage" paragraphs. */
  datatype Description = BasicAttack | AuxiliaryData | KAnonymity | DifferentialPrivacy {
    function Number(): (n: int)
      ensures 1 <= n <= 4
    {
      match this
      case BasicAttack => 1
      case AuxiliaryData => 2
      case KAnonymity => 3
      case DifferentialPrivacy => 4
    }
  }

  /** The page renders one independent `currentStage === k` test per
      component; these are the components that pass, in page order. */
  function RenderedComponents(currentStage: int): (r: seq<StageComponent>)
    ensures 1 <= currentStage <= 4 ==> |r| == 1 && r[0].Number() == currentStage
    ensures !(1 <= currentStage <= 4) ==> r == []
    ensures forall c :: c in r <==> c.Number() == currentStage
  {
    (if currentStage == 1 then [StageOne] else [])
    + (if currentStage == 2 then [StageTwo] else [])
    + (if currentStage == 3 then [StageThree] else [])
    + (if currentStage == 4 then [StageFour] else [])
  }

  /** The descriptions that pass their `currentStage === k` test. */
  function RenderedDescriptions(currentStage: int): (r: seq<Description>)
    ensures 1 <= currentStage <= 4 ==> |r| == 1 && r[0].Number() == currentStage
    ensures !(1 <= currentStage <= 4) ==> r == []
    ensures forall d :: d in r <==> d.Number() == currentStage
  {
    (if currentStage == 1 then [BasicAttack] else [])
    + (if currentStage == 2 then [AuxiliaryData] else [])
    + (if currentStage == 3 then [KAnonymity] else [])
    + (if currentStage == 4 then [DifferentialPrivacy] else [])
  }

  /** The page's state. */
  class Simulator {
    var currentStage: int

    constructor ()
      ensures currentStage == 1
    {
      currentStage := 1;
    }

    /** `handleStageComplete(stage)`: the new stage comes from the argument,
        not from the current state. */
    method HandleStageComplete(stage: int)
      modifies this
      ensures currentStage == stage + 1
    {
      currentStage := stage + 1;
    }

    /** A component's completion callback fires. Its argument is the
        component's own number, so when the component is the one on screen
        the stage moves up by exactly one; a callback of a component no
        longer on screen (stage four's delayed one, say) sets the stage after
        that component again. */
    method OnComplete(c: StageComponent)
      modifies this
      ensures currentStage == c.Number() + 1
      ensures c in RenderedComponents(old(currentStage)) ==> currentStage == old(currentStage) + 1
    {
      HandleStageComplete(c.Number());
    }
  }

  /** The stages visited when the given callbacks fire in turn from stage
      `stage`, or None as soon as one of them is not on screen. */
  function Run(stage: int, callbacks: seq<StageComponent>): Option<int>
    decreases callbacks
  {
    if callbacks == [] then Some(stage)
    else if callbacks[0] in RenderedComponents(stage) then Run(callbacks[0].Number() + 1, callbacks[1..])
    else None
  }

  /** From stage 1, callbacks of rendered components only ever move the
      stage up by one each: after n of them the stage is 1 + n, and there are
      at most four, because at stage 5 nothing is rendered. */
  lemma {:induction false} RunFrom(stage: int, callbacks: seq<StageComponent>, s: int)
    requires 1 <= stage <= 5
    requires Run(stage, callbacks) == Some(s)
    ensures s == stage + |callbacks| && s <= 5
    decreases callbacks
  {
    if callbacks != [] {
      var c := callbacks[0];
      assert c.Number() == stage;
      RunFrom(stage + 1, callbacks[1..], s);
    }
  }

  /** If every component called back, completing the four stages on screen
      in order would reach stage 5, where neither a component nor a
      description is shown. */
  lemma FullRun()
    ensures Run(1, [StageOne, StageTwo, StageThree, StageFour]) == Some(5)
    ensures RenderedComponents(5) == [] && RenderedDescriptions(5) == []
  {
  }

  /** As written only stage four calls back, and it is not on screen at
      stage 1: any run of such callbacks from stage 1 stalls at once, so the
      page never leaves stage 1. */
  lemma StuckAtStageOne(callbacks: seq<StageComponent>, s: int)
    requires forall i :: 0 <= i < |callbacks| ==> callbacks[i] == StageFour
    requires Run(1, callbacks) == Some(s)
    ensures s == 1 && callbacks == []
  {
  }
}
