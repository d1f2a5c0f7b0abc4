/**
 * The places a KIE Veo record-info answer can hold the finished video's URL, shared by the two
 * `extractVideoUrl` functions (api/generate-video.ts and backend/kieClient.ts). Each probe is
 * `None` when its place does not qualify; the first qualifying probe, in a fixed order, wins.
 */
module VideoUrl {
  import opened Wrappers
  import opened Json

  /** `!data || typeof data !== 'object'` fails: only a truthy object or array is searched. */
  predicate Searchable(data: Option<Json>) {
    Truthy(data) && TypeofObject(data.value)
  }

  /** `inner && typeof inner === 'object' ? inner : d` with `inner = d.data`. */
  function Target(d: Json): (t: Json)
    ensures Searchable(Field(Some(d), "data")) ==> t == d.fields["data"]
    ensures !Searchable(Field(Some(d), "data")) ==> t == d
  {
    var inner := Field(Some(d), "data");
    if Searchable(inner) then inner.value else d
  }

  /** `output.video.url`, when `output.video` is truthy and its `url` is a string. */
  function OutputVideoUrl(t: Json): Option<Json> {
    var video := Field(Field(Some(t), "output"), "video");
    if Truthy(video) && IsString(Field(video, "url")) then Field(video, "url") else None
  }

  /** `result.video_url`, when it is a non-empty string. */
  function ResultVideoUrl(t: Json): Option<Json> {
    var u := Field(Field(Some(t), "result"), "video_url");
    if IsNonEmptyString(u) then u else None
  }

  /** `result.videos[0].url`, when `videos` is an array and that `url` is truthy. */
  function ResultVideosUrl(t: Json): Option<Json> {
    var videos := Field(Field(Some(t), "result"), "videos");
    var u := Field(At(videos, 0), "url");
    if IsArray(videos) && Truthy(u) then u else None
  }

  /** `response.resultUrls[0]`, when it is a non-empty string of an array. */
  function ResponseResultUrls(t: Json): Option<Json> {
    var urls := Field(Field(Some(t), "response"), "resultUrls");
    if IsArray(urls) && IsNonEmptyString(At(urls, 0)) then At(urls, 0) else None
  }

  /** `response.result_urls[0]`, when it is a truthy entry of an array. */
  function ResponseResultUrlsSnake(t: Json): Option<Json> {
    var urls := Field(Field(Some(t), "response"), "result_urls");
    if IsArray(urls) && Truthy(At(urls, 0)) then At(urls, 0) else None
  }

  /** `response.video_url`, when it is a string (the empty string included). */
  function ResponseVideoUrlString(t: Json): Option<Json> {
    var u := Field(Field(Some(t), "response"), "video_url");
    if IsString(u) then u else None
  }

  /** `response.video_url`, when it is truthy (of any type). */
  function ResponseVideoUrlTruthy(t: Json): Option<Json> {
    var u := Field(Field(Some(t), "response"), "video_url");
    if Truthy(u) then u else None
  }

  /** The first probe that qualifies. */
  function FirstHit(probes: seq<Option<Json>>): Option<Json> {
    if probes == [] then None
    else if probes[0].Some? then probes[0]
    else FirstHit(probes[1..])
  }

  /**
   * `FirstHit` finds something exactly when some probe qualifies, and then it is the value of the
   * earliest qualifying one.
   */
  lemma {:induction false} FirstHitSpec(probes: seq<Option<Json>>)
    ensures FirstHit(probes).None? <==> forall i :: 0 <= i < |probes| ==> probes[i].None?
    ensures FirstHit(probes).Some? ==>
      exists i :: 0 <= i < |probes| && probes[i] == FirstHit(probes) && forall j :: 0 <= j < i ==> probes[j].None?
  {
    if probes != [] && probes[0].None? {
      FirstHitSpec(probes[1..]);
      if FirstHit(probes).Some? {
        var i :| 0 <= i < |probes[1..]| && probes[1..][i] == FirstHit(probes[1..]) && forall j :: 0 <= j < i ==> probes[1..][j].None?;
        assert probes[i + 1] == FirstHit(probes);
        forall j | 0 <= j < i + 1 ensures probes[j].None? {
          if j > 0 { assert probes[j] == probes[1..][j - 1]; }
        }
      } else {
        forall i | 0 <= i < |probes| ensures probes[i].None? {
          if i > 0 { assert probes[i] == probes[1..][i - 1]; }
        }
      }
    }
  }

  /** A qualifying probe hides every later one. */
  lemma {:induction false} FirstHitAt(probes: seq<Option<Json>>, i: nat)
    requires i < |probes| && probes[i].Some?
    requires forall j :: 0 <= j < i ==> probes[j].None?
    ensures FirstHit(probes) == probes[i]
    decreases i
  {
    if i > 0 {
      assert probes[1..][i - 1] == probes[i];
      forall j | 0 <= j < i - 1 ensures probes[1..][j].None? {
        assert probes[1..][j] == probes[j + 1];
      }
      FirstHitAt(probes[1..], i - 1);
    }
  }
}
