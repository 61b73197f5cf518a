/** Business profile and usage quota (core/platform_manager.py).  The JSON
    data file is a field holding what was last written; reading and writing
    it cannot fail in the model except as noted on `Load`. */
module Platform {
  import opened Base

  datatype BusinessProfile = BusinessProfile(
    id: string, name: string, industry: string, productDescription: string,
    goals: string, complianceRules: string, agentName: string, tone: string)

  const DefaultProfile := BusinessProfile(
    "default_biz", "Generic Business", "General", "Our amazing products and services.",
    "Help customers find the right product.", "Be polite and helpful.", "Assistant",
    "Professional and friendly")

  datatype Subscription = Subscription(isActive: bool, planName: string, usageCount: int, usageLimit: int)

  /** The free tier every new subscription starts on. */
  const FreeTier := Subscription(false, "Free", 0, 10)

  const ProfileKeys: set<string> := {"id", "name", "industry", "product_description", "goals",
                                     "compliance_rules", "agent_name", "tone"}

  /** `profile.model_dump()` */
  function ProfileDict(p: BusinessProfile): (d: Dict)
    ensures d.Keys == ProfileKeys
    ensures forall k :: k in d ==> d[k].Str?
  {
    map["id" := Str(p.id), "name" := Str(p.name), "industry" := Str(p.industry),
        "product_description" := Str(p.productDescription), "goals" := Str(p.goals),
        "compliance_rules" := Str(p.complianceRules), "agent_name" := Str(p.agentName),
        "tone" := Str(p.tone)]
  }

  /** Every profile field supplied in `d` holds a string; other keys are ignored. */
  predicate ProfileFieldsOk(d: Dict) {
    forall k :: k in ProfileKeys && k in d ==> d[k].Str?
  }

  /** `BusinessProfile(**d)`: absent fields take their defaults, unknown keys are ignored. */
  function ProfileFromDict(d: Dict): (r: Result<BusinessProfile, ValidationError>)
    ensures r.Ok? <==> ProfileFieldsOk(d)
    ensures r.Ok? ==> forall k :: k in ProfileKeys ==>
      ProfileDict(r.value)[k] == (if k in d then d[k] else ProfileDict(DefaultProfile)[k])
  {
    if !ProfileFieldsOk(d) then
      Err(ValidationError(
        (if StrOk(d, "id") then [] else ["id"]) + (if StrOk(d, "name") then [] else ["name"])
        + (if StrOk(d, "industry") then [] else ["industry"])
        + (if StrOk(d, "product_description") then [] else ["product_description"])
        + (if StrOk(d, "goals") then [] else ["goals"])
        + (if StrOk(d, "compliance_rules") then [] else ["compliance_rules"])
        + (if StrOk(d, "agent_name") then [] else ["agent_name"])
        + (if StrOk(d, "tone") then [] else ["tone"])))
    else
      Ok(BusinessProfile(
        StrOr(d, "id", DefaultProfile.id), StrOr(d, "name", DefaultProfile.name),
        StrOr(d, "industry", DefaultProfile.industry),
        StrOr(d, "product_description", DefaultProfile.productDescription),
        StrOr(d, "goals", DefaultProfile.goals),
        StrOr(d, "compliance_rules", DefaultProfile.complianceRules),
        StrOr(d, "agent_name", DefaultProfile.agentName), StrOr(d, "tone", DefaultProfile.tone)))
  }

  /** Dumping a profile and loading the dump gives the same profile. */
  lemma ProfileRoundTrip(p: BusinessProfile)
    ensures ProfileFromDict(ProfileDict(p)) == Ok(p)
  {
  }

  /** `current = profile.model_dump(); current.update(data); BusinessProfile(**current)` */
  function MergeProfile(p: BusinessProfile, data: Dict): (r: Result<BusinessProfile, ValidationError>)
    ensures r.Ok? <==> ProfileFieldsOk(data)
    ensures r.Ok? ==> forall k :: k in ProfileKeys ==>
      ProfileDict(r.value)[k] == (if k in data then data[k] else ProfileDict(p)[k])
  {
    ProfileFromDict(ProfileDict(p) + data)
  }

  /** A merge with no profile fields supplied leaves the profile as it was. */
  lemma MergeNothing(p: BusinessProfile, data: Dict)
    requires forall k :: k in data ==> k !in ProfileKeys
    ensures MergeProfile(p, data) == Ok(p)
  {
    ProfileRoundTrip(p);
    var m := ProfileDict(p) + data;
    assert forall k :: k in ProfileKeys ==> m[k] == ProfileDict(p)[k];
  }

  // ---------------------------------------------------------------------------
  // Subscription
  // ---------------------------------------------------------------------------

  function SubscriptionDict(s: Subscription): (d: Dict)
    ensures d.Keys == {"is_active", "plan_name", "usage_count", "usage_limit"}
  {
    map["is_active" := Bool(s.isActive), "plan_name" := Str(s.planName),
        "usage_count" := Int(s.usageCount), "usage_limit" := Int(s.usageLimit)]
  }

  predicate SubscriptionFieldsOk(d: Dict) {
    ("is_active" !in d || d["is_active"].Bool?) && StrOk(d, "plan_name")
    && ("usage_count" !in d || d["usage_count"].Int?) && ("usage_limit" !in d || d["usage_limit"].Int?)
  }

  /** `Subscription(**d)` */
  function SubscriptionFromDict(d: Dict): (r: Result<Subscription, ValidationError>)
    ensures r.Ok? <==> SubscriptionFieldsOk(d)
    ensures r.Ok? ==> forall k :: k in SubscriptionDict(FreeTier) ==>
      SubscriptionDict(r.value)[k] == (if k in d then d[k] else SubscriptionDict(FreeTier)[k])
    ensures r.Ok? && d == map[] ==> r.value == FreeTier
  {
    if !SubscriptionFieldsOk(d) then
      Err(ValidationError(
        (if "is_active" !in d || d["is_active"].Bool? then [] else ["is_active"])
        + (if StrOk(d, "plan_name") then [] else ["plan_name"])
        + (if "usage_count" !in d || d["usage_count"].Int? then [] else ["usage_count"])
        + (if "usage_limit" !in d || d["usage_limit"].Int? then [] else ["usage_limit"])))
    else
      Ok(Subscription(
        "is_active" in d && d["is_active"].b,
        StrOr(d, "plan_name", "Free"),
        if "usage_count" in d then d["usage_count"].i else 0,
        if "usage_limit" in d then d["usage_limit"].i else 10))
  }

  lemma SubscriptionRoundTrip(s: Subscription)
    ensures SubscriptionFromDict(SubscriptionDict(s)) == Ok(s)
  {
  }

  /** The quota gate on a subscription: what check_access returns and the
      subscription it leaves. */
  datatype Decision = Decision(granted: bool, after: Subscription)

  function Gate(s: Subscription): (d: Decision)
    ensures d.granted <==> s.isActive || s.usageCount < s.usageLimit
    ensures d.after.usageCount == s.usageCount + (if !s.isActive && d.granted then 1 else 0)
    ensures d.after == s.(usageCount := d.after.usageCount)
  {
    if s.isActive then Decision(true, s)
    else if s.usageCount < s.usageLimit then Decision(true, s.(usageCount := s.usageCount + 1))
    else Decision(false, s)
  }

  /** An inactive subscription never counts past its limit. */
  predicate WithinQuota(s: Subscription) {
    !s.isActive ==> s.usageCount <= s.usageLimit
  }

  lemma GateKeepsQuota(s: Subscription)
    requires WithinQuota(s)
    ensures WithinQuota(Gate(s).after)
  {
  }

  /** The answers of `n` consecutive check_access calls. */
  function Answers(s: Subscription, n: nat): (r: seq<bool>)
    ensures |r| == n
    decreases n
  {
    if n == 0 then [] else [Gate(s).granted] + Answers(Gate(s).after, n - 1)
  }

  /** On an inactive subscription the first `limit - count` calls are granted
      and every later one is refused. */
  lemma {:induction false} AnswersOnFreeTier(s: Subscription, n: nat)
    requires !s.isActive
    ensures forall i :: 0 <= i < n ==> Answers(s, n)[i] == (i < s.usageLimit - s.usageCount)
    decreases n
  {
    if n > 0 {
      var t := Gate(s).after;
      AnswersOnFreeTier(t, n - 1);
      assert t.usageLimit - t.usageCount == s.usageLimit - s.usageCount - (if s.usageCount < s.usageLimit then 1 else 0);
      forall i | 0 <= i < n ensures Answers(s, n)[i] == (i < s.usageLimit - s.usageCount) {
        if i > 0 {
          assert Answers(s, n)[i] == Answers(t, n - 1)[i - 1];
        }
      }
    }
  }

  /** On an active subscription every call is granted and nothing is counted. */
  lemma {:induction false} AnswersOnPremium(s: Subscription, n: nat)
    requires s.isActive
    ensures forall i :: 0 <= i < n ==> Answers(s, n)[i]
    decreases n
  {
    if n > 0 {
      AnswersOnPremium(s, n - 1);
      assert Answers(s, n) == [true] + Answers(s, n - 1);
    }
  }

  // ---------------------------------------------------------------------------
  // The data file and the manager
  // ---------------------------------------------------------------------------

  /** One section of the data file: absent (`data.get` then gives `{}`),
      a JSON object, or any other JSON value (null, a number, a list...),
      on which `**` raises TypeError. */
  datatype Section = Absent | Object(fields: Dict) | NotObject

  /** What the data file holds: nothing, something that does not parse as a
      JSON object, or the object's two sections (`profile`, `subscription`). */
  datatype DataFile = Missing | Unreadable | Json(profile: Section, subscription: Section)

  datatype Platform = Platform(profile: BusinessProfile, subscription: Subscription)

  function Fields(s: Section): Dict {
    if s.Object? then s.fields else map[]
  }

  predicate ProfileLoads(s: Section) {
    !s.NotObject? && ProfileFromDict(Fields(s)).Ok?
  }

  predicate SubscriptionLoads(s: Section) {
    !s.NotObject? && SubscriptionFromDict(Fields(s)).Ok?
  }

  /** _load_data: the profile is replaced before the subscription is read,
      so a bad subscription section keeps the loaded profile and the default
      subscription; a bad profile section keeps both defaults. */
  function Load(f: DataFile): (p: Platform)
    ensures f.Missing? || f.Unreadable? ==> p == Platform(DefaultProfile, FreeTier)
    ensures f.Json? && !ProfileLoads(f.profile) ==> p == Platform(DefaultProfile, FreeTier)
    ensures f.Json? && ProfileLoads(f.profile) ==> p.profile == ProfileFromDict(Fields(f.profile)).value
    ensures f.Json? && ProfileLoads(f.profile) && !SubscriptionLoads(f.subscription) ==> p.subscription == FreeTier
    ensures f.Json? && ProfileLoads(f.profile) && SubscriptionLoads(f.subscription)
      ==> p.subscription == SubscriptionFromDict(Fields(f.subscription)).value
  {
    match f
    case Json(ps, ss) =>
      if !ProfileLoads(ps) then Platform(DefaultProfile, FreeTier)
      else if !SubscriptionLoads(ss) then Platform(ProfileFromDict(Fields(ps)).value, FreeTier)
      else Platform(ProfileFromDict(Fields(ps)).value, SubscriptionFromDict(Fields(ss)).value)
    case _ => Platform(DefaultProfile, FreeTier)
  }

  /** A partial subscription section keeps the loaded profile and fills the
      missing subscription fields with their defaults. */
  lemma PartialSubscriptionLoads(profile: Section, limit: int)
    requires ProfileLoads(profile)
    ensures Load(Json(profile, Object(map["usage_limit" := Int(limit)]))).subscription
            == FreeTier.(usageLimit := limit)
  {
    var d := map["usage_limit" := Int(limit)];
    var r := SubscriptionFromDict(d);
    assert r.Ok?;
    assert SubscriptionDict(r.value)["usage_limit"] == Int(limit);
    assert SubscriptionDict(r.value)["is_active"] == Bool(false);
    assert SubscriptionDict(r.value)["plan_name"] == Str("Free");
    assert SubscriptionDict(r.value)["usage_count"] == Int(0);
  }

  /** What _save_data writes: both sections as objects, each of which loads. */
  function Saved(p: BusinessProfile, s: Subscription): (f: DataFile)
    ensures f.Json? && ProfileLoads(f.profile) && SubscriptionLoads(f.subscription)
  {
    ProfileRoundTrip(p);
    SubscriptionRoundTrip(s);
    Json(Object(ProfileDict(p)), Object(SubscriptionDict(s)))
  }

  /** What was saved loads back unchanged. */
  lemma SaveLoadRoundTrip(p: BusinessProfile, s: Subscription)
    ensures Load(Saved(p, s)) == Platform(p, s)
  {
    ProfileRoundTrip(p);
    SubscriptionRoundTrip(s);
  }

  class PlatformManager {
    var profile: BusinessProfile
    var subscription: Subscription
    /** The contents of the data file. */
    var file: DataFile

    /** `PlatformManager()` over the data file as it is found; a missing file
        is created with the defaults. */
    constructor (found: DataFile)
      ensures profile == Load(found).profile && subscription == Load(found).subscription
      ensures file == if found.Missing? then Saved(DefaultProfile, FreeTier) else found
    {
      var p := Load(found);
      profile := p.profile;
      subscription := p.subscription;
      file := if found.Missing? then Saved(p.profile, p.subscription) else found;
    }

    /** The file agrees with the in-memory state. */
    predicate Persisted()
      reads this
    {
      file == Saved(profile, subscription)
    }

    /** update_profile: supplied fields override, the others keep their
        values; a value that is not a string raises and changes nothing. */
    method UpdateProfile(data: Dict) returns (r: Result<BusinessProfile, ValidationError>)
      modifies this
      ensures r == MergeProfile(old(profile), data)
      ensures r.Ok? ==> profile == r.value && Persisted()
      ensures r.Err? ==> profile == old(profile) && file == old(file)
      ensures subscription == old(subscription)
    {
      r := MergeProfile(profile, data);
      if r.Ok? {
        profile := r.value;
        file := Saved(profile, subscription);
      }
    }

    /** check_access */
    method CheckAccess() returns (granted: bool)
      modifies this
      ensures Decision(granted, subscription) == Gate(old(subscription))
      ensures old(subscription).isActive ==> granted && subscription == old(subscription) && file == old(file)
      ensures !old(subscription).isActive && !granted ==> subscription == old(subscription) && file == old(file)
      ensures !old(subscription).isActive && granted ==> Persisted()
      ensures profile == old(profile)
    {
      if subscription.isActive {
        return true;
      }
      if subscription.usageCount < subscription.usageLimit {
        subscription := subscription.(usageCount := subscription.usageCount + 1);
        file := Saved(profile, subscription);
        return true;
      }
      return false;
    }

    /** upgrade_subscription */
    method UpgradeSubscription()
      modifies this
      ensures subscription == old(subscription).(isActive := true, planName := "Premium")
      ensures profile == old(profile) && Persisted()
    {
      subscription := subscription.(isActive := true, planName := "Premium");
      file := Saved(profile, subscription);
    }

    /** reset_usage */
    method ResetUsage()
      modifies this
      ensures subscription == old(subscription).(usageCount := 0)
      ensures profile == old(profile) && Persisted()
    {
      subscription := subscription.(usageCount := 0);
      file := Saved(profile, subscription);
    }
  }

  /** The quota scenario: after a reset with the limit lowered to 2, three
      checks answer true, true, false. */
  method LimitsScenario(found: DataFile) returns (answers: seq<bool>)
    requires !Load(found).subscription.isActive
    ensures answers == [true, true, false]
  {
    var m := new PlatformManager(found);
    m.ResetUsage();
    m.subscription := m.subscription.(usageLimit := 2);
    var a := m.CheckAccess();
    var b := m.CheckAccess();
    var c := m.CheckAccess();
    answers := [a, b, c];
  }

  /** The upgrade scenario: with the limit lowered to 1 the second check is
      refused; after upgrading, a check is granted although the limit is
      reached, and the count stays where it was. */
  method UpgradeScenario(found: DataFile) returns (second: bool, active: bool, granted: bool, count: int)
    requires !Load(found).subscription.isActive
    ensures !second && active && granted && count == 1
  {
    var m := new PlatformManager(found);
    m.ResetUsage();
    m.subscription := m.subscription.(usageLimit := 1);
    var first := m.CheckAccess();
    second := m.CheckAccess();
    m.UpgradeSubscription();
    active := m.subscription.isActive;
    granted := m.CheckAccess();
    count := m.subscription.usageCount;
  }
}
