/** `WhisperXProcessor`: the progress reports of `process_audio`, the text it joins from the
    segments, the duration and language it picks, and the per-size model cache. The speech model
    itself is an oracle: what `transcribe` returned (or that it raised) is a parameter. */
module WhisperX {
  import opened Wrappers
  import opened Json
  import Text

  /** One call of the progress callback. */
  datatype Progress = Progress(percent: int, message: string)

  const LoadingText := "正在加载模型..."
  const TranscribingText := "正在转写音频..."
  const AligningText := "正在对齐时间戳..."
  const FinishingText := "正在生成最终结果..."
  const SavingText := "正在保存结果..."
  const DoneText := "处理完成"

  /** What `model.transcribe` returned: the `language` entry when the dict has one, and the
      `segments` list when it has one (each segment a dict). */
  datatype Transcript = Transcript(language: Option<Json>, segments: Option<seq<map<string, Json>>>)

  /** The result dict and the audio duration `process_audio` returns. */
  datatype Processed = Processed(result: map<string, Json>, duration: Json)

  /** How far `process_audio` gets: `transcribe` raising, a segment text that is not a string
      (the `+ " "` raises), the result file failing to save, or the end. */
  datatype Stage = TranscribeRaised | JoinRaised | SaveRaised | Done

  /** A loaded model: its size and the number of the load that produced it. */
  datatype Model = Model(size: string, load: nat)

  function SegmentsOf(t: Transcript): seq<map<string, Json>> {
    if t.segments.Some? then t.segments.value else []
  }

  /** `transcription.get("language", language)`. */
  function DetectedLanguage(t: Transcript, language: Option<string>): (l: Json)
    ensures t.language.Some? ==> l == t.language.value
    ensures t.language.None? ==> l == OptStr(language)
  {
    if t.language.Some? then t.language.value else OptStr(language)
  }

  /** The `end` of the last segment, or 0 when there are no segments. */
  function Duration(t: Transcript): (d: Json)
    ensures SegmentsOf(t) == [] ==> d == JInt(0)
    ensures SegmentsOf(t) != [] ==> d == Get(SegmentsOf(t)[|SegmentsOf(t)| - 1], "end", JInt(0))
  {
    var segs := SegmentsOf(t);
    if segs == [] then JInt(0) else Get(segs[|segs| - 1], "end", JInt(0))
  }

  /** The text of each segment that has one, each followed by a space; None when some text is
      not a string. */
  function Joined(segs: seq<map<string, Json>>): Option<string>
    decreases |segs|
  {
    if segs == [] then Some("")
    else
      var front :- Joined(segs[..|segs| - 1]);
      var s := segs[|segs| - 1];
      if "text" !in s then Some(front)
      else if s["text"].JStr? then Some(front + s["text"].s + " ")
      else None
  }

  /** The segments that carry a `text` entry. */
  function WithText(segs: seq<map<string, Json>>): (r: seq<map<string, Json>>)
    ensures |r| <= |segs|
    ensures forall k :: 0 <= k < |r| ==> "text" in r[k]
    decreases |segs|
  {
    if segs == [] then []
    else WithText(segs[..|segs| - 1]) + if "text" in segs[|segs| - 1] then [segs[|segs| - 1]] else []
  }

  /** Segments without `text` contribute nothing: joining all of them is joining those with text. */
  lemma {:induction false} JoinSkipsTextless(segs: seq<map<string, Json>>)
    ensures Joined(segs) == Joined(WithText(segs))
    decreases |segs|
  {
    if segs != [] {
      var front := segs[..|segs| - 1];
      var s := segs[|segs| - 1];
      JoinSkipsTextless(front);
      var w := WithText(front);
      if "text" in s {
        assert WithText(segs) == w + [s];
        assert (w + [s])[..|w + [s]| - 1] == w;
      } else {
        assert WithText(segs) == w;
      }
    }
  }

  /** The joined text is the segments' texts, each followed by one space. */
  lemma {:induction false} JoinedOfTexts(texts: seq<string>)
    ensures Joined(seq(|texts|, k requires 0 <= k < |texts| => map["text" := JStr(texts[k])])) == Some(Spaced(texts))
    decreases |texts|
  {
    var segs := seq(|texts|, k requires 0 <= k < |texts| => map["text" := JStr(texts[k])]);
    if texts != [] {
      var front := texts[..|texts| - 1];
      JoinedOfTexts(front);
      assert segs[..|segs| - 1] == seq(|front|, k requires 0 <= k < |front| => map["text" := JStr(front[k])]);
    }
  }

  function Spaced(texts: seq<string>): string
    decreases |texts|
  {
    if texts == [] then "" else Spaced(texts[..|texts| - 1]) + texts[|texts| - 1] + " "
  }

  /** What `process_audio` does with a transcript: the stage it reaches and its result. */
  function StageOf(t: Option<Transcript>, saved: bool): Stage {
    if t.None? then TranscribeRaised
    else if Joined(SegmentsOf(t.value)).None? then JoinRaised
    else if !saved then SaveRaised
    else Done
  }

  /** The result dict: the stripped text, the language, the segments as returned. */
  function ResultOf(t: Transcript, language: Option<string>, text: string): (r: map<string, Json>)
    ensures r.Keys == {"text", "language", "segments"}
    ensures r["text"] == JStr(Text.Strip(text)) && r["language"] == DetectedLanguage(t, language)
    ensures r["segments"] == SegmentsJson(SegmentsOf(t))
  {
    map["text" := JStr(Text.Strip(text)), "language" := DetectedLanguage(t, language),
        "segments" := SegmentsJson(SegmentsOf(t))]
  }

  /** The segments list as it went in: the same dicts in the same order. */
  function SegmentsJson(segs: seq<map<string, Json>>): (j: Json)
    ensures j.JArr? && |j.items| == |segs| && forall k :: 0 <= k < |segs| ==> j.items[k] == JObj(segs[k])
  {
    JArr(seq(|segs|, k requires 0 <= k < |segs| => JObj(segs[k])))
  }

  /** The progress reports of a run that reaches `stage`. */
  function Reports(stage: Stage): (r: seq<Progress>)
    ensures |r| >= 2 && r[0] == Progress(10, LoadingText) && r[1] == Progress(20, TranscribingText)
    ensures forall i, j :: 0 <= i < j < |r| ==> r[i].percent < r[j].percent
    ensures (stage == Done) <==> r[|r| - 1].percent == 100
  {
    var start := [Progress(10, LoadingText), Progress(20, TranscribingText)];
    match stage
    case TranscribeRaised => start
    case JoinRaised => start + [Progress(50, AligningText), Progress(80, FinishingText)]
    case SaveRaised => start + [Progress(50, AligningText), Progress(80, FinishingText), Progress(90, SavingText)]
    case Done =>
      start + [Progress(50, AligningText), Progress(80, FinishingText), Progress(90, SavingText), Progress(100, DoneText)]
  }

  /** A successful run reports exactly 10, 20, 50, 80, 90 and 100. */
  lemma SuccessReports()
    ensures seq(|Reports(Done)|, k requires 0 <= k < |Reports(Done)| => Reports(Done)[k].percent) == [10, 20, 50, 80, 90, 100]
  {
  }

  class WhisperXProcessor {
    /** The loaded models by size. */
    var modelCache: map<string, Model>
    /** The sizes loaded since the cache was last cleared, in load order. */
    ghost var loadsSinceClear: seq<string>
    /** How many loads there were in all. */
    var totalLoads: nat

    /** Each cached size was loaded exactly once since the last clear, and is cached under its size. */
    ghost predicate Valid()
      reads this
    {
      && (forall s :: s in modelCache <==> s in loadsSinceClear)
      && (forall i, j :: 0 <= i < j < |loadsSinceClear| ==> loadsSinceClear[i] != loadsSinceClear[j])
      && (forall s :: s in modelCache ==> modelCache[s].size == s)
    }

    constructor()
      ensures Valid() && modelCache == map[] && loadsSinceClear == [] && totalLoads == 0
    {
      modelCache := map[];
      loadsSinceClear := [];
      totalLoads := 0;
    }

    /** `_get_model`: a size in the cache is served from it; any other size is loaded, cached and
        served. */
    method GetModel(size: string) returns (m: Model)
      requires Valid()
      modifies this
      ensures Valid()
      ensures m.size == size && size in modelCache && modelCache[size] == m
      ensures size in old(modelCache) ==>
        m == old(modelCache)[size] && modelCache == old(modelCache) && loadsSinceClear == old(loadsSinceClear)
        && totalLoads == old(totalLoads)
      ensures size !in old(modelCache) ==>
        m == Model(size, old(totalLoads)) && modelCache == old(modelCache)[size := m]
        && loadsSinceClear == old(loadsSinceClear) + [size] && totalLoads == old(totalLoads) + 1
    {
      if size !in modelCache {
        modelCache := modelCache[size := Model(size, totalLoads)];
        loadsSinceClear := loadsSinceClear + [size];
        totalLoads := totalLoads + 1;
      }
      m := modelCache[size];
    }

    /** `clear_cache`. */
    method ClearCache()
      modifies this
      ensures Valid() && modelCache == map[] && loadsSinceClear == [] && totalLoads == old(totalLoads)
    {
      modelCache := map[];
      loadsSinceClear := [];
    }

    /** `process_audio`: loads the `tiny` model, takes the language and the duration from the
        transcript, joins the segment texts, and saves the result (`saved` says whether writing
        the result file succeeds); `progress` is what the callback was handed, none without one. */
    method ProcessAudio(transcribed: Option<Transcript>, language: Option<string>, hasCallback: bool, saved: bool)
      returns (r: Try<Processed>, progress: seq<Progress>)
      requires Valid()
      modifies this
      ensures Valid() && "tiny" in modelCache && modelCache["tiny"].size == "tiny"
      ensures "tiny" in old(modelCache) ==>
        modelCache == old(modelCache) && loadsSinceClear == old(loadsSinceClear) && totalLoads == old(totalLoads)
      ensures "tiny" !in old(modelCache) ==>
        modelCache == old(modelCache)["tiny" := Model("tiny", old(totalLoads))]
        && loadsSinceClear == old(loadsSinceClear) + ["tiny"] && totalLoads == old(totalLoads) + 1
      ensures progress == if hasCallback then Reports(StageOf(transcribed, saved)) else []
      ensures StageOf(transcribed, saved) != Done ==> r.Raises?
      ensures StageOf(transcribed, saved) == Done ==>
        var t := transcribed.value;
        r == Ok(Processed(ResultOf(t, language, Joined(SegmentsOf(t)).value), Duration(t)))
    {
      ReportsArePrefixes();
      progress := [];
      if hasCallback {
        progress := progress + [Progress(10, LoadingText)];
      }
      if hasCallback {
        progress := progress + [Progress(20, TranscribingText)];
      }
      assert progress == Upto(hasCallback, 2);
      var _ := GetModel("tiny");
      assert Valid() && "tiny" in modelCache && modelCache["tiny"].size == "tiny";
      if transcribed.None? {
        return Raises, progress;
      }
      var t := transcribed.value;
      var detected := DetectedLanguage(t, language);
      var duration := Duration(t);
      if hasCallback {
        progress := progress + [Progress(50, AligningText)];
      }
      if hasCallback {
        progress := progress + [Progress(80, FinishingText)];
      }
      assert progress == Upto(hasCallback, 4);
      var segs := SegmentsOf(t);
      var joined := JoinTexts(segs);
      if joined.None? {
        return Raises, progress;
      }
      var fullText := joined.value;
      var result := map["text" := JStr(Text.Strip(fullText)), "language" := detected,
                        "segments" := SegmentsJson(segs)];
      if hasCallback {
        progress := progress + [Progress(90, SavingText)];
      }
      assert progress == Upto(hasCallback, 5);
      if !saved {
        return Raises, progress;
      }
      if hasCallback {
        progress := progress + [Progress(100, DoneText)];
      }
      assert progress == Upto(hasCallback, 6);
      return Ok(Processed(result, duration)), progress;
    }
  }

  /** The first `k` reports of a successful run, when there is a callback to receive them. */
  ghost function Upto(hasCallback: bool, k: nat): seq<Progress>
    requires k <= 6
  {
    if hasCallback then Reports(Done)[..k] else []
  }

  /** A run that stops early reports a prefix of what a successful run reports. */
  lemma ReportsArePrefixes()
    ensures |Reports(Done)| == 6
    ensures Reports(TranscribeRaised) == Reports(Done)[..2]
    ensures Reports(JoinRaised) == Reports(Done)[..4]
    ensures Reports(SaveRaised) == Reports(Done)[..5]
    ensures Reports(Done) == Reports(Done)[..6]
  {
  }

  /** The loop of `process_audio` that builds `full_text`: each segment's text and a space, in
      order; a text that is not a string raises. */
  method JoinTexts(segs: seq<map<string, Json>>) returns (r: Option<string>)
    ensures r == Joined(segs)
  {
    var fullText := "";
    var i := 0;
    while i < |segs|
      invariant 0 <= i <= |segs|
      invariant Joined(segs[..i]) == Some(fullText)
    {
      assert segs[..i + 1][..i] == segs[..i] && segs[..i + 1][i] == segs[i];
      if "text" in segs[i] {
        if !segs[i]["text"].JStr? {
          JoinStops(segs, i + 1);
          return None;
        }
        fullText := fullText + segs[i]["text"].s + " ";
      }
      i := i + 1;
    }
    assert segs[..i] == segs;
    return Some(fullText);
  }

  /** Once a prefix of the segments has a text that is not a string, the whole join raises. */
  lemma {:induction false} JoinStops(segs: seq<map<string, Json>>, i: nat)
    requires i <= |segs| && Joined(segs[..i]).None?
    ensures Joined(segs).None?
    decreases |segs| - i
  {
    if i < |segs| {
      assert segs[..i + 1][..i] == segs[..i];
      JoinStops(segs, i + 1);
    } else {
      assert segs[..i] == segs;
    }
  }

  /** Loading through the cache: however often each size is asked for, the number of loads since
      the last clear is the number of distinct sizes cached. */
  lemma LoadsMatchCache(p: WhisperXProcessor)
    requires p.Valid()
    ensures |p.loadsSinceClear| == |p.modelCache|
  {
    var ls := p.loadsSinceClear;
    SeqDistinctCard(ls);
    assert p.modelCache.Keys == set s | s in ls;
  }

  /** A sequence without repeats has as many distinct elements as entries. */
  lemma {:induction false} SeqDistinctCard(ls: seq<string>)
    requires forall i, j :: 0 <= i < j < |ls| ==> ls[i] != ls[j]
    ensures |set s | s in ls| == |ls|
    decreases |ls|
  {
    if ls != [] {
      var front := ls[..|ls| - 1];
      SeqDistinctCard(front);
      assert (set s | s in ls) == (set s | s in front) + {ls[|ls| - 1]};
      assert ls[|ls| - 1] !in front;
    }
  }
}
