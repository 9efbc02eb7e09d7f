/** The IPC command that matches a list of hint images against one
    screenshot and numbers the results by their position in the list. */
module TemplateMatchCommand {
  import opened Base
  import opened TemplateMatcher

  datatype TemplateImage = TemplateImage(imageData: string, fileName: string)

  datatype HintImageMatchResult = HintImageMatchResult(index: nat, fileName: string, matchResult: MatchResult)

  const DEFAULT_CONFIDENCE_THRESHOLD: real := 0.7

  /** The threshold actually used: the caller's, or 0.7 when none is given. */
  function EffectiveThreshold(confidenceThreshold: Option<real>): (t: real)
    ensures confidenceThreshold.Some? ==> t == confidenceThreshold.value
    ensures confidenceThreshold.None? ==> t == DEFAULT_CONFIDENCE_THRESHOLD
  {
    match confidenceThreshold
    case Some(t) => t
    case None => DEFAULT_CONFIDENCE_THRESHOLD
  }

  /** `match_hint_images`: one result per hint image, in input order, each
      carrying its index, its file name and the batch's result for it. */
  function MatchHintImages(screenshotBase64: string, templateImages: seq<TemplateImage>, scaleFactor: real,
                           confidenceThreshold: Option<real>, ext: Externals): (out: seq<HintImageMatchResult>)
    ensures |out| == |templateImages|
    ensures forall i :: 0 <= i < |out| ==>
      && out[i].index == i
      && out[i].fileName == templateImages[i].fileName
      && out[i].matchResult.Consistent()
      && out[i].matchResult == FindTemplateInScreenshot(screenshotBase64, templateImages[i].imageData, scaleFactor,
                                                        EffectiveThreshold(confidenceThreshold), ext).(
                                 error := out[i].matchResult.error)
  {
    var threshold := EffectiveThreshold(confidenceThreshold);
    var templates := seq(|templateImages|, i requires 0 <= i < |templateImages| =>
      (templateImages[i].imageData, templateImages[i].fileName));
    var batch := MatchTemplatesBatch(screenshotBase64, templates, scaleFactor, threshold, ext);
    assert forall i :: 0 <= i < |batch| ==>
      batch[i].1 == FindTemplateInScreenshot(screenshotBase64, templates[i].0, scaleFactor, threshold, ext).(
        error := batch[i].1.error) by {
      forall i | 0 <= i < |batch|
        ensures batch[i].1 == FindTemplateInScreenshot(screenshotBase64, templates[i].0, scaleFactor, threshold,
                                                       ext).(error := batch[i].1.error)
      {
        BatchAgreesWithSingle(screenshotBase64, templates, scaleFactor, threshold, ext, i);
      }
    }
    seq(|batch|, i requires 0 <= i < |batch| => HintImageMatchResult(i, batch[i].0, batch[i].1))
  }

  /** The numbered results are the batch's results, untouched and in order. */
  lemma HintResultsAreBatchResults(screenshotBase64: string, templateImages: seq<TemplateImage>, scaleFactor: real,
                                   confidenceThreshold: Option<real>, ext: Externals)
    ensures var out := MatchHintImages(screenshotBase64, templateImages, scaleFactor, confidenceThreshold, ext);
      var batch := MatchTemplatesBatch(screenshotBase64,
        seq(|templateImages|, i requires 0 <= i < |templateImages| =>
          (templateImages[i].imageData, templateImages[i].fileName)),
        scaleFactor, EffectiveThreshold(confidenceThreshold), ext);
      |out| == |batch| && forall i :: 0 <= i < |out| ==> out[i].matchResult == batch[i].1
  {
  }
}
