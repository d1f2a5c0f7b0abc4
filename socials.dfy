/**
 * The social networks a merchant can connect (services/socials.ts): the platform table, the
 * default connection map (only Telegram on), and loading a stored map, in which a stored
 * boolean replaces the default for a known platform and everything else is ignored.
 */
module Socials {
  import opened Wrappers
  import opened Json

  /** `SocialPlatformMeta`; `label` is a reserved word here, so the field is `title`. */
  datatype SocialPlatformMeta = SocialPlatformMeta(id: string, title: string, brandColor: string, bgColor: string, short: string)

  /** `SOCIAL_PLATFORMS` */
  const SOCIAL_PLATFORMS: seq<SocialPlatformMeta> := [
    SocialPlatformMeta("telegram", "Telegram", "#229ED9", "#E0F4FF", "TG"),
    SocialPlatformMeta("vk", "VK", "#0077FF", "#E0F0FF", "VK"),
    SocialPlatformMeta("facebook", "Facebook", "#1778F2", "#E2ECFF", "f"),
    SocialPlatformMeta("instagram", "Instagram", "#E1306C", "#FFE4F0", "IG"),
    SocialPlatformMeta("threads", "Threads", "#000000", "#EEEEEE", "Th"),
    SocialPlatformMeta("tenchat", "TenChat", "#FF3B30", "#FFE5E2", "10"),
    SocialPlatformMeta("pinterest", "Pinterest", "#E60023", "#FFE2E8", "P"),
    SocialPlatformMeta("dzen", "Дзен", "#000000", "#F2F2F2", "Д"),
    SocialPlatformMeta("ok", "OK", "#EE8208", "#FFEAD1", "OK")
  ]

  /** `SocialConnectionsState`: platform id to connected or not. */
  type SocialConnections = map<string, bool>

  /** The ids of the first `n` platforms of `ps`. */
  function IdsBefore(ps: seq<SocialPlatformMeta>, n: nat): set<string>
    requires n <= |ps|
  {
    set j | 0 <= j < n :: ps[j].id
  }

  /** The ids of `SocialPlatformId`. */
  function PlatformIds(): set<string> {
    IdsBefore(SOCIAL_PLATFORMS, |SOCIAL_PLATFORMS|)
  }

  /** The default of one platform: on for Telegram, off for the rest. */
  predicate DefaultOn(id: string) {
    id == "telegram"
  }

  /** Every platform of `ps` at its default. */
  function DefaultsOf(ps: seq<SocialPlatformMeta>): (r: SocialConnections)
    ensures r.Keys == IdsBefore(ps, |ps|)
  {
    map id | id in IdsBefore(ps, |ps|) :: DefaultOn(id)
  }

  function Defaults(): (r: SocialConnections)
    ensures r.Keys == PlatformIds()
  {
    DefaultsOf(SOCIAL_PLATFORMS)
  }

  /** The stored value of platform `id`: a boolean overrides the default, anything else is ignored. */
  function StoredOr(stored: Option<Json>, id: string): bool {
    var v := Field(stored, id);
    if v.Some? && v.value.JBool? then v.value.b else DefaultOn(id)
  }

  /** Every platform of `ps` at its stored boolean, or at its default. */
  function MergedOf(ps: seq<SocialPlatformMeta>, stored: Option<Json>): SocialConnections {
    map id | id in IdsBefore(ps, |ps|) :: StoredOr(stored, id)
  }

  /** What `loadSocialConnections` returns for the parsed value `stored`. */
  function Merged(stored: Option<Json>): SocialConnections {
    MergedOf(SOCIAL_PLATFORMS, stored)
  }

  /** `JSON.parse(JSON.stringify(state))`, the value `saveSocialConnections` leaves behind. */
  function Saved(state: SocialConnections): Json {
    JObj(map k | k in state :: JBool(state[k]))
  }

  /** The platform ids are exactly the members of `SocialPlatformId`. */
  lemma PlatformIdsSpec()
    ensures PlatformIds() == {"telegram", "vk", "facebook", "instagram", "threads", "tenchat", "pinterest", "dzen", "ok"}
  {
    var ps := SOCIAL_PLATFORMS;
    assert IdsBefore(ps, 0) == {};
    IdsBeforeStep(ps, 0);
    IdsBeforeStep(ps, 1);
    IdsBeforeStep(ps, 2);
    IdsBeforeStep(ps, 3);
    IdsBeforeStep(ps, 4);
    IdsBeforeStep(ps, 5);
    IdsBeforeStep(ps, 6);
    IdsBeforeStep(ps, 7);
    IdsBeforeStep(ps, 8);
  }

  /** One more platform adds its id. */
  lemma IdsBeforeStep(ps: seq<SocialPlatformMeta>, n: nat)
    requires n < |ps|
    ensures IdsBefore(ps, n + 1) == IdsBefore(ps, n) + {ps[n].id}
  {
  }

  /** Telegram is a platform. */
  lemma TelegramIsPlatform()
    ensures "telegram" in PlatformIds()
  {
    assert SOCIAL_PLATFORMS[0].id == "telegram";
  }

  /** The `reduce` of `createDefaultSocialConnections` over the platforms `ps`. */
  method BuildDefaults(ps: seq<SocialPlatformMeta>) returns (acc: SocialConnections)
    ensures acc == DefaultsOf(ps)
  {
    acc := map[];
    for i := 0 to |ps|
      invariant acc.Keys == IdsBefore(ps, i)
      invariant forall id :: id in acc ==> acc[id] == DefaultOn(id)
    {
      acc := acc[ps[i].id := ps[i].id == "telegram"];
      assert IdsBefore(ps, i + 1) == IdsBefore(ps, i) + {ps[i].id};
    }
  }

  /** The loop of `loadSocialConnections` over the platforms `ps`, starting from their defaults. */
  method MergeStored(ps: seq<SocialPlatformMeta>, stored: Option<Json>) returns (merged: SocialConnections)
    ensures merged == MergedOf(ps, stored)
  {
    merged := BuildDefaults(ps);
    for i := 0 to |ps|
      invariant merged.Keys == IdsBefore(ps, |ps|)
      invariant forall id :: id in merged ==> merged[id] == if id in IdsBefore(ps, i) then StoredOr(stored, id) else DefaultOn(id)
    {
      var v := Field(stored, ps[i].id);
      if v.Some? && v.value.JBool? {
        merged := merged[ps[i].id := v.value.b];
      }
      assert IdsBefore(ps, i + 1) == IdsBefore(ps, i) + {ps[i].id};
    }
  }

  /**
   * `createDefaultSocialConnections()`: one key per platform, Telegram on and every other
   * platform off.
   */
  method CreateDefaultSocialConnections() returns (acc: SocialConnections)
    ensures acc == Defaults()
    ensures acc.Keys == PlatformIds() && "telegram" in acc
    ensures forall id :: id in acc ==> (acc[id] <==> id == "telegram")
  {
    acc := BuildDefaults(SOCIAL_PLATFORMS);
    TelegramIsPlatform();
  }

  /**
   * `loadSocialConnections(storageKey)`: `stored` is the parsed value, `None` when nothing is
   * stored or it does not parse, which gives the defaults; otherwise the defaults with each
   * platform's stored boolean over them.
   */
  method LoadSocialConnections(stored: Option<Json>) returns (merged: SocialConnections)
    ensures merged == Merged(stored)
    ensures merged.Keys == PlatformIds()
  {
    if stored.None? {
      merged := CreateDefaultSocialConnections();
      NothingStoredGivesDefaults(stored);
      return;
    }
    merged := MergeStored(SOCIAL_PLATFORMS, stored);
  }

  /** Nothing stored, and a stored value that is not an object, give the defaults. */
  lemma NothingStoredGivesDefaults(stored: Option<Json>)
    requires stored.None? || !stored.value.JObj?
    ensures Merged(stored) == Defaults()
  {
  }

  /** Keys outside the platform ids are dropped, and a stored non-boolean keeps the default. */
  lemma MergedSpec(stored: Option<Json>, id: string)
    ensures id !in Merged(stored) <==> id !in PlatformIds()
    ensures id in PlatformIds() && IsBool(Field(stored, id)) ==> Merged(stored)[id] == Field(stored, id).value.b
    ensures id in PlatformIds() && !IsBool(Field(stored, id)) ==> Merged(stored)[id] == (id == "telegram")
  {
  }

  predicate IsBool(v: Option<Json>) {
    v.Some? && v.value.JBool?
  }

  /** Loading straight after saving a map with exactly the platform ids gives that map back. */
  lemma LoadAfterSave(state: SocialConnections)
    requires state.Keys == PlatformIds()
    ensures Merged(Some(Saved(state))) == state
  {
    var m := Merged(Some(Saved(state)));
    forall id | id in m ensures m[id] == state[id] {
      assert Field(Some(Saved(state)), id) == Some(JBool(state[id]));
    }
  }
}
