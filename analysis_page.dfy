/**
  The AI-analysis page: five pipeline stages shown with a status each, a
  run button that advances them one by one, a reset button, and the colour
  bucket of each resume-section score bar.
 */
module AnalysisPage {

  datatype StageStatus = Idle | Running | Complete

  /** A pipeline stage; its icon is presentation only and is not kept. */
  datatype Stage = Stage(name: string, engine: string, status: StageStatus, detail: string)

  const InitialStages: seq<Stage> := [
    Stage("Text Extraction", "Apache Tika + pdfplumber", Idle, "Parse resume PDF/DOCX into structured text"),
    Stage("Semantic Embedding", "all-MiniLM-L6-v2 (384d)", Idle, "Generate transformer-based dense vector representation"),
    Stage("Vector Search", "Pinecone (cosine, top-10)", Idle, "Find nearest job/course vectors in embedding space"),
    Stage("RAG Generation", "GPT-4o-mini + LangChain", Idle, "Retrieve context and generate personalized roadmap"),
    Stage("LLM Feedback", "GPT-4o-mini (structured)", Idle, "Generate actionable resume improvement suggestions")
  ]

  /** Two stage lists describe the same stages, whatever their statuses. */
  predicate SameStages(a: seq<Stage>, b: seq<Stage>)
  {
    && |a| == |b|
    && forall j :: 0 <= j < |a| ==> a[j].name == b[j].name && a[j].engine == b[j].engine && a[j].detail == b[j].detail
  }

  /** Every stage has status `st`. */
  predicate AllAre(stages: seq<Stage>, st: StageStatus)
  {
    forall j :: 0 <= j < |stages| ==> stages[j].status == st
  }

  /** One step of the run loop: stage `i` takes status `st`. */
  function SetStatus(stages: seq<Stage>, i: nat, st: StageStatus): (r: seq<Stage>)
    requires i < |stages|
    ensures SameStages(r, stages)
    ensures r[i].status == st
    ensures forall j :: 0 <= j < |r| && j != i ==> r[j] == stages[j]
  {
    stages[i := stages[i].(status := st)]
  }

  /** The reset map: every stage takes status `st`. */
  function AllSetTo(stages: seq<Stage>, st: StageStatus): (r: seq<Stage>)
    ensures SameStages(r, stages)
    ensures AllAre(r, st)
  {
    seq(|stages|, j requires 0 <= j < |stages| => stages[j].(status := st))
  }

  /** The page state: the stages and the two flags. */
  class Pipeline {
    var stages: seq<Stage>
    var pipelineRunning: bool
    var pipelineComplete: bool

    /**
      Between handler calls the stages are the initial five, the pipeline is
      not running, the stages are either all idle or all complete, and the
      complete flag says which.
     */
    ghost predicate Valid()
      reads this
    {
      && SameStages(stages, InitialStages)
      && !pipelineRunning
      && (AllAre(stages, Idle) || AllAre(stages, Complete))
      && (pipelineComplete <==> AllAre(stages, Complete))
    }

    constructor ()
      ensures stages == InitialStages
      ensures !pipelineRunning && !pipelineComplete
      ensures Valid()
    {
      stages := InitialStages;
      pipelineRunning := false;
      pipelineComplete := false;
      assert InitialStages[0].status == Idle;
    }

    /** The run button is enabled unless the pipeline is running. */
    predicate CanRun()
      reads this
    {
      !pipelineRunning
    }

    /** The reset button is offered only once the pipeline is complete. */
    predicate OffersReset()
      reads this
    {
      pipelineComplete
    }

    /**
      Marks each stage running and then complete, in order; the delay between
      the two is not modelled. On exit every stage is complete, running is
      over and the page offers reset.
     */
    method RunPipeline()
      requires Valid()
      modifies this
      ensures Valid()
      ensures SameStages(stages, old(stages))
      ensures AllAre(stages, Complete)
      ensures !pipelineRunning && pipelineComplete
      ensures CanRun() && OffersReset()
    {
      pipelineRunning := true;
      pipelineComplete := false;
      var n := |stages|;
      var i := 0;
      while i < n
        invariant 0 <= i <= n
        invariant SameStages(stages, old(stages))
        invariant forall j :: 0 <= j < i ==> stages[j].status == Complete
        invariant forall j :: i <= j < n ==> stages[j] == old(stages)[j]
        invariant pipelineRunning && !pipelineComplete
      {
        stages := SetStatus(stages, i, Running);
        stages := SetStatus(stages, i, Complete);
        i := i + 1;
      }
      pipelineRunning := false;
      pipelineComplete := true;
    }

    /** Sets every stage idle and clears the complete flag; running is left alone. */
    method ResetPipeline()
      requires Valid()
      modifies this
      ensures Valid()
      ensures SameStages(stages, old(stages))
      ensures AllAre(stages, Idle)
      ensures !pipelineComplete && pipelineRunning == old(pipelineRunning)
      ensures CanRun() && !OffersReset()
    {
      stages := AllSetTo(stages, Idle);
      pipelineComplete := false;
      assert stages[0].status == Idle;
    }
  }

  const BarGreen := "bg-metric-green"
  const BarPrimary := "bg-primary"
  const BarOrange := "bg-metric-orange"

  /** The colour class of a section score bar: green from 80, primary from 70 to 79, orange below 70. */
  function SectionBar(score: int): (colour: string)
    ensures colour == BarGreen <==> score >= 80
    ensures colour == BarPrimary <==> 70 <= score < 80
    ensures colour == BarOrange <==> score < 70
  {
    if score >= 80 then BarGreen else if score >= 70 then BarPrimary else BarOrange
  }

  /** The bucket's rank: orange 0, primary 1, green 2. */
  function BarRank(colour: string): nat
  {
    if colour == BarGreen then 2 else if colour == BarPrimary then 1 else 0
  }

  /** A higher score never gets a lower bucket. */
  lemma SectionBarMonotone(a: int, b: int)
    requires a <= b
    ensures BarRank(SectionBar(a)) <= BarRank(SectionBar(b))
  {
  }
}
