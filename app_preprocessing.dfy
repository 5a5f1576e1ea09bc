/*
 * `preprocess_prompt` of the app: the prompt with its whitespace
 * normalised, returned both as the task and as the preview text.
 */
module AppPreprocessing {
  import opened Common

  /** `{"task": norm, "preview_text": norm}` with `norm = " ".join(text.split())`. */
  function PreprocessPrompt(text: string): (r: map<string, string>)
    ensures r.Keys == {"task", "preview_text"}
    ensures r["task"] == r["preview_text"]
    ensures Normalized(r["task"])
    ensures r["task"] == [] <==> AllSpace(text)
  {
    var norm := Squash(text);
    map["task" := norm, "preview_text" := norm]
  }

  /** Normalising the normalised task again gives the same result. */
  lemma PreprocessIdempotent(text: string)
    ensures PreprocessPrompt(PreprocessPrompt(text)["task"]) == PreprocessPrompt(text)
  {
    SquashIdempotent(text);
  }

  /** The words of the task are the words of the prompt, in order. */
  lemma PreprocessKeepsWords(text: string)
    ensures Words(PreprocessPrompt(text)["task"]) == Words(text)
  {
    WordsOfJoin(Words(text));
  }
}
