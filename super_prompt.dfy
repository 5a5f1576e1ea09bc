/*
 * `SuperPrompt`: the mutable record that carries one user prompt through
 * the pipeline stages. Other modules update its `body`, `prompt_ready`,
 * `history_of_stages` and `stage` in place.
 */
module SuperPromptState {
  import opened Common
  import opened PyJson

  /** A retrieved context piece (`ragstream/retrieval/chunk.py`). */
  datatype Chunk = Chunk(id: string, source: string, snippet: string, span: (int, int), meta: map<string, Json>)

  /** The ten canonical body keys, in the order the initial dict lists them. */
  const BodyKeys: seq<string> := ["system", "task", "audience", "role", "tone", "depth", "context", "purpose", "format", "text"]

  /** The body a new SuperPrompt starts with. */
  function DefaultBody(): map<string, Option<string>>
  {
    map[
      "system" := Some("consultant"), "task" := None, "audience" := None, "role" := None,
      "tone" := Some("neutral"), "depth" := Some("high"), "context" := None, "purpose" := None,
      "format" := None, "text" := None]
  }

  /**
   * The default body has exactly the ten keys; `system`, `tone` and `depth`
   * have their defaults and every other key is None.
   */
  lemma DefaultBodyShape()
    ensures forall k :: k in DefaultBody() <==> k in BodyKeys
    ensures forall k :: k in DefaultBody() ==>
      DefaultBody()[k] == (if k == "system" then Some("consultant") else if k == "tone" then Some("neutral")
                           else if k == "depth" then Some("high") else None)
  {
  }

  class SuperPrompt {
    var stage: string
    var modelTarget: Option<string>
    var historyOfStages: seq<string>
    var body: map<string, Option<string>>
    var extras: map<string, Json>
    var baseContextChunks: seq<Chunk>
    var viewsByStage: map<string, seq<string>>
    var finalSelectionIds: seq<string>
    var recentConversation: map<string, Json>
    var systemMd: string
    var promptMd: string
    var sCtxMd: string
    var attachmentsMd: string
    var promptReady: string

    /**
     * `SuperPrompt(stage=..., model_target=...)`: the given stage ("raw" by
     * default), the default body, and every other container and rendered
     * string empty.
     */
    constructor(stage: string, modelTarget: Option<string>)
      ensures this.stage == stage && this.modelTarget == modelTarget
      ensures historyOfStages == [] && body == DefaultBody() && extras == map[]
      ensures baseContextChunks == [] && viewsByStage == map[] && finalSelectionIds == [] && recentConversation == map[]
      ensures systemMd == "" && promptMd == "" && sCtxMd == "" && attachmentsMd == "" && promptReady == ""
    {
      this.stage := stage;
      this.modelTarget := modelTarget;
      historyOfStages := [];
      body := DefaultBody();
      extras := map[];
      baseContextChunks := [];
      viewsByStage := map[];
      finalSelectionIds := [];
      recentConversation := map[];
      systemMd := "";
      promptMd := "";
      sCtxMd := "";
      attachmentsMd := "";
      promptReady := "";
    }

    /** The fields that the preprocessing and A2 stages never write. */
    function Untouched(): (Option<string>, map<string, Json>, seq<Chunk>, map<string, seq<string>>, seq<string>,
                           map<string, Json>, string, string, string, string)
      reads this
    {
      (modelTarget, extras, baseContextChunks, viewsByStage, finalSelectionIds, recentConversation,
       systemMd, promptMd, sCtxMd, attachmentsMd)
    }

    /** A write of the whole body. */
    method SetBody(b: map<string, Option<string>>)
      modifies this
      ensures body == b && promptReady == old(promptReady)
      ensures historyOfStages == old(historyOfStages) && stage == old(stage) && Untouched() == old(Untouched())
    {
      body := b;
    }

    /** The writes that close a stage: the composed text, the stage appended to the history, the stage itself. */
    method CloseStage(ready: string, name: string)
      modifies this
      ensures promptReady == ready && historyOfStages == old(historyOfStages) + [name] && stage == name
      ensures body == old(body) && Untouched() == old(Untouched())
    {
      promptReady := ready;
      historyOfStages := historyOfStages + [name];
      stage := name;
    }
  }

  /** `SuperPrompt()`: stage "raw", no model target. */
  method NewSuperPrompt() returns (sp: SuperPrompt)
    ensures fresh(sp) && sp.stage == "raw" && sp.modelTarget == None && sp.body == DefaultBody()
    ensures sp.historyOfStages == [] && sp.promptReady == ""
  {
    sp := new SuperPrompt("raw", None);
  }
}
