/** The generation screen (components/steps/GenerationStep.tsx): a guarded,
    strictly sequential pass that asks the generation service for one image
    per photo, keeps the successes in input order, swallows single failures
    and fails as a whole only when nothing was generated. */
module Generation {
  import opened Types

  /** The rotating messages shown while the run is in progress. */
  const WarmMessages: seq<string> := [
    "正在捕捉宝贝的萌动瞬间...",
    "AI 艺术大师正在细心描绘...",
    "正在为宝贝定制专属写真...",
    "唯美大片即将呈现，请稍候...",
    "爱与科技正在奇妙交汇..."
  ]

  /** The error a run ends with when every photo failed. */
  const FailureMessage: string := "生成失败，请检查网络或更换清晰照片重试"

  /** What one awaited generation call gives back: image data, or a rejection. */
  datatype GenOutcome = Generated(url: string) | GenerationFailed

  /** The name every result of a run carries: scene name, a space, style name. */
  function TemplateName(scene: TemplateScene, style: TemplateStyle): (name: string)
    ensures |name| == |scene.name| + 1 + |style.name|
    ensures name[..|scene.name|] == scene.name && name[|scene.name|] == ' '
    ensures name[|scene.name| + 1..] == style.name
  {
    scene.name + " " + style.name
  }

  /** The next message shown after a tick of the message timer. */
  function NextMessageIndex(prev: nat): (next: nat)
    ensures next < |WarmMessages|
    ensures prev < |WarmMessages| ==> (next == 0 <==> prev == |WarmMessages| - 1)
    ensures prev < |WarmMessages| - 1 ==> next == prev + 1
  {
    (prev + 1) % |WarmMessages|
  }

  /** The positions whose generation call succeeded, in increasing order:
      each is a success, and every success is listed. */
  function SuccessIndices(outcomes: seq<GenOutcome>): (idx: seq<nat>)
    ensures forall k :: 0 <= k < |idx| ==> idx[k] < |outcomes| && outcomes[idx[k]].Generated?
    ensures forall k, l :: 0 <= k < l < |idx| ==> idx[k] < idx[l]
    ensures forall i :: 0 <= i < |outcomes| && outcomes[i].Generated? ==> i in idx
    decreases |outcomes|
  {
    if outcomes == [] then []
    else
      var n := |outcomes| - 1;
      SuccessIndices(outcomes[..n]) + (if outcomes[n].Generated? then [n] else [])
  }

  /** What one attempt adds to the results: one record on success, nothing on failure. */
  function Attempt(photo: Photo, outcome: GenOutcome, freshId: Id, templateName: string): (added: seq<GeneratedPhoto>)
    ensures |added| <= 1 && (|added| == 1 <==> outcome.Generated?)
    ensures forall g :: g in added ==>
      g.id == freshId && g.originalPhotoId == photo.id && g.templateName == templateName && g.url == outcome.url
  {
    match outcome
    case Generated(url) => [GeneratedPhoto(freshId, url, photo.id, templateName)]
    case GenerationFailed => []
  }

  /** The results of one pass: `outcomes[i]` is what the service gives for
      `photos[i]`, and `freshIds[i]` the id a success at that position gets. */
  function Generate(photos: seq<Photo>, outcomes: seq<GenOutcome>, freshIds: seq<Id>, templateName: string): (r: seq<GeneratedPhoto>)
    requires |outcomes| == |photos| && |freshIds| == |photos|
    ensures |r| <= |photos|
    ensures forall k :: 0 <= k < |r| ==> r[k].templateName == templateName
    decreases |photos|
  {
    if photos == [] then []
    else
      var n := |photos| - 1;
      Generate(photos[..n], outcomes[..n], freshIds[..n], templateName)
      + Attempt(photos[n], outcomes[n], freshIds[n], templateName)
  }

  /** The results are exactly the successful attempts, in the order of their
      source photos: the k-th result comes from the k-th success, points back
      at that photo, carries that call's image and the run's template name. */
  lemma {:induction false} GenerateMatchesSuccesses(photos: seq<Photo>, outcomes: seq<GenOutcome>, freshIds: seq<Id>, templateName: string)
    requires |outcomes| == |photos| && |freshIds| == |photos|
    ensures var r := Generate(photos, outcomes, freshIds, templateName);
            var idx := SuccessIndices(outcomes);
            |r| == |idx|
            && forall k :: 0 <= k < |r| ==>
                 r[k] == GeneratedPhoto(freshIds[idx[k]], outcomes[idx[k]].url, photos[idx[k]].id, templateName)
    decreases |photos|
  {
    if photos != [] {
      var n := |photos| - 1;
      GenerateMatchesSuccesses(photos[..n], outcomes[..n], freshIds[..n], templateName);
      var r0 := Generate(photos[..n], outcomes[..n], freshIds[..n], templateName);
      var idx0 := SuccessIndices(outcomes[..n]);
      var r := Generate(photos, outcomes, freshIds, templateName);
      var idx := SuccessIndices(outcomes);
      assert r == r0 + Attempt(photos[n], outcomes[n], freshIds[n], templateName);
      assert idx == idx0 + (if outcomes[n].Generated? then [n] else []);
      forall k | 0 <= k < |r0|
        ensures r[k] == GeneratedPhoto(freshIds[idx[k]], outcomes[idx[k]].url, photos[idx[k]].id, templateName)
      {
        var j := idx0[k];
        assert r[k] == r0[k] && idx[k] == j && j < n;
        assert photos[..n][j] == photos[j] && outcomes[..n][j] == outcomes[j] && freshIds[..n][j] == freshIds[j];
      }
    }
  }

  /** A pass yields no result exactly when every call failed. */
  lemma {:induction false} GenerateEmptyIff(photos: seq<Photo>, outcomes: seq<GenOutcome>, freshIds: seq<Id>, templateName: string)
    requires |outcomes| == |photos| && |freshIds| == |photos|
    ensures Generate(photos, outcomes, freshIds, templateName) == []
            <==> forall i :: 0 <= i < |outcomes| ==> outcomes[i].GenerationFailed?
  {
    GenerateMatchesSuccesses(photos, outcomes, freshIds, templateName);
    var idx := SuccessIndices(outcomes);
    if |idx| > 0 {
      assert outcomes[idx[0]].Generated?;
    }
  }

  /** Each result points back at one of the photos of the pass. */
  lemma {:induction false} ResultsComeFromPhotos(photos: seq<Photo>, outcomes: seq<GenOutcome>, freshIds: seq<Id>, templateName: string)
    requires |outcomes| == |photos| && |freshIds| == |photos|
    ensures var r := Generate(photos, outcomes, freshIds, templateName);
            forall k :: 0 <= k < |r| ==> exists i :: 0 <= i < |photos| && r[k].originalPhotoId == photos[i].id
  {
    GenerateMatchesSuccesses(photos, outcomes, freshIds, templateName);
  }

  /** The number of results is the number of successful calls, so never more
      than the number of photos. */
  lemma {:induction false} ResultCountIsSuccessCount(photos: seq<Photo>, outcomes: seq<GenOutcome>, freshIds: seq<Id>, templateName: string)
    requires |outcomes| == |photos| && |freshIds| == |photos|
    ensures |Generate(photos, outcomes, freshIds, templateName)| == |SuccessIndices(outcomes)| <= |photos|
  {
    GenerateMatchesSuccesses(photos, outcomes, freshIds, templateName);
    IncreasingIndicesBounded(SuccessIndices(outcomes), |outcomes|);
  }

  /** A strictly increasing list of positions below n has at most n entries. */
  lemma {:induction false} IncreasingIndicesBounded(idx: seq<nat>, n: nat)
    requires forall k :: 0 <= k < |idx| ==> idx[k] < n
    requires forall k, l :: 0 <= k < l < |idx| ==> idx[k] < idx[l]
    ensures |idx| <= n
  {
    if |idx| > 0 {
      var m := |idx| - 1;
      assert forall k :: 0 <= k < m ==> idx[..m][k] < idx[m];
      IncreasingIndicesBounded(idx[..m], idx[m]);
    }
  }

  /** Two photos, the first generated and the second failing, with the crib
      scene and the cream style: one result, labelled with both names, from
      the first photo. Through `RunFinished`, a run of `StartGeneration` on
      these outcomes leaves the success counter at that one result. */
  lemma TwoPhotosOneFailure(p1: Photo, p2: Photo, url: string, id1: Id, id2: Id)
    ensures var name := TemplateName(TemplateScene("crib", "婴儿床时光"), TemplateStyle("cream", "软萌奶油风"));
            var r := Generate([p1, p2], [Generated(url), GenerationFailed], [id1, id2], name);
            name == "婴儿床时光 软萌奶油风"
            && r == [GeneratedPhoto(id1, url, p1.id, name)]
            && |r| == 1
  {
    var name := TemplateName(TemplateScene("crib", "婴儿床时光"), TemplateStyle("cream", "软萌奶油风"));
    assert [p1, p2][..1] == [p1];
    assert [Generated(url), GenerationFailed][..1] == [Generated(url)];
    assert [id1, id2][..1] == [id1];
    assert Generate([p1], [Generated(url)], [id1], name) == [GeneratedPhoto(id1, url, p1.id, name)] by {
      assert [p1][..0] == [] && [Generated(url)][..0] == [] && [id1][..0] == [];
    }
  }

  class GenerationStep {
    const photos: seq<Photo>
    const scene: TemplateScene
    const style: TemplateStyle
    /** The success counter shown as progress. */
    var generatedCount: nat
    var error: Option<string>
    var messageIndex: nat
    /** The re-entrancy guard (a ref, so updates are seen at once). */
    var isRunning: bool

    /** The counter never passes the number of photos and the message index
        always names a message. */
    ghost predicate Valid()
      reads this
    {
      generatedCount <= |photos| && messageIndex < |WarmMessages|
    }

    constructor (photos: seq<Photo>, scene: TemplateScene, style: TemplateStyle)
      ensures this.photos == photos && this.scene == scene && this.style == style
      ensures generatedCount == 0 && error == None && messageIndex == 0 && !isRunning
      ensures Valid()
    {
      this.photos := photos;
      this.scene := scene;
      this.style := style;
      generatedCount := 0;
      error := None;
      messageIndex := 0;
      isRunning := false;
    }

    /** The state a completed pass leaves: the counter equals the number of
        results; no result means the failure message and a cleared guard and no
        completion; otherwise no error, the guard still set and the completion
        handed the results. */
    ghost predicate RunFinished(outcomes: seq<GenOutcome>, freshIds: seq<Id>, completion: Option<seq<GeneratedPhoto>>)
      requires |outcomes| == |photos| && |freshIds| == |photos|
      reads this
    {
      var results := Generate(photos, outcomes, freshIds, TemplateName(scene, style));
      generatedCount == |results|
      && (results == [] ==> error == Some(FailureMessage) && !isRunning && completion == None)
      && (results != [] ==> error == None && isRunning && completion == Some(results))
    }

    /** One run. While the guard is set the call does nothing and issues no
        request. Otherwise it sets the guard, clears the error and the counter,
        calls the service once per photo in order, and finishes as RunFinished
        says. `calls` is the number of requests issued; `completion` is the
        list handed to onComplete, if any. */
    method StartGeneration(outcomes: seq<GenOutcome>, freshIds: seq<Id>)
      returns (calls: nat, completion: Option<seq<GeneratedPhoto>>)
      requires Valid()
      requires |outcomes| == |photos| && |freshIds| == |photos|
      modifies this
      ensures Valid() && messageIndex == old(messageIndex)
      ensures old(isRunning) ==> calls == 0 && completion == None && unchanged(this)
      ensures !old(isRunning) ==> calls == |photos| && RunFinished(outcomes, freshIds, completion)
    {
      if isRunning {
        return 0, None;
      }
      isRunning := true;
      error := None;
      generatedCount := 0;
      var templateName := TemplateName(scene, style);
      var results: seq<GeneratedPhoto> := [];
      calls := 0;
      for i := 0 to |photos|
        invariant results == Generate(photos[..i], outcomes[..i], freshIds[..i], templateName)
        invariant generatedCount == |results| && generatedCount <= i
        invariant isRunning && error == None && messageIndex == old(messageIndex)
        invariant calls == i
      {
        assert photos[..i + 1][..i] == photos[..i];
        assert outcomes[..i + 1][..i] == outcomes[..i];
        assert freshIds[..i + 1][..i] == freshIds[..i];
        calls := calls + 1;
        results := results + Attempt(photos[i], outcomes[i], freshIds[i], templateName);
        if outcomes[i].Generated? {
          generatedCount := generatedCount + 1;
        }
      }
      assert photos[..|photos|] == photos;
      assert outcomes[..|photos|] == outcomes;
      assert freshIds[..|photos|] == freshIds;
      if |results| == 0 {
        error := Some(FailureMessage);
        isRunning := false;
        completion := None;
      } else {
        completion := Some(results);
      }
    }

    /** The retry button: clear the guard, then run, so a fresh pass always happens. */
    method Retry(outcomes: seq<GenOutcome>, freshIds: seq<Id>)
      returns (calls: nat, completion: Option<seq<GeneratedPhoto>>)
      requires Valid()
      requires |outcomes| == |photos| && |freshIds| == |photos|
      modifies this
      ensures Valid() && messageIndex == old(messageIndex)
      ensures calls == |photos| && RunFinished(outcomes, freshIds, completion)
    {
      isRunning := false;
      calls, completion := StartGeneration(outcomes, freshIds);
    }

    /** One tick of the message timer. */
    method TickMessage()
      requires Valid()
      modifies this
      ensures Valid()
      ensures messageIndex == NextMessageIndex(old(messageIndex))
      ensures generatedCount == old(generatedCount) && error == old(error) && isRunning == old(isRunning)
    {
      messageIndex := NextMessageIndex(messageIndex);
    }
  }
}
