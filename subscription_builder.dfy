/**
 * The subscription example of the Builder demo: a builder that writes every step into one
 * private plan object and returns that same object from `Build`, and a director that runs
 * fixed chains of steps on the builder it was given.
 */
module SubscriptionBuilder {
  import opened Wrappers
  import opened LazyCollections

  /** The fields of a `SubscriptionPlan`; `decimal` prices are exact, so `real`. */
  datatype PlanState = PlanState(
    name: Option<string>,
    price: real,
    userLimit: int,
    storageLimit: int,
    hasApiAccess: bool,
    apiRequestLimit: int,
    features: Option<seq<string>>,
    customSettings: Option<map<string, string>>)

  /** The product: a plain object with settable fields, all at their C# defaults at first. */
  class SubscriptionPlan {
    var name: Option<string>
    var price: real
    var userLimit: int
    var storageLimit: int
    var hasApiAccess: bool
    var apiRequestLimit: int
    var features: Option<seq<string>>
    var customSettings: Option<map<string, string>>

    function State(): PlanState
      reads this
    {
      PlanState(name, price, userLimit, storageLimit, hasApiAccess, apiRequestLimit, features,
        customSettings)
    }

    constructor ()
      ensures State() == Blank()
    {
      name, price, userLimit, storageLimit := None, 0.0, 0, 0;
      hasApiAccess, apiRequestLimit := false, 0;
      features, customSettings := None, None;
    }
  }

  /** A plan nobody has written to: null texts and collections, zero numbers, no API access. */
  function Blank(): PlanState
  {
    PlanState(None, 0.0, 0, 0, false, 0, None, None)
  }

  /** `SubscriptionPlanBuilder`: every step writes into `plan` and returns this builder. */
  class SubscriptionPlanBuilder {
    const plan: SubscriptionPlan

    constructor ()
      ensures fresh(plan) && plan.State() == Blank()
    {
      plan := new SubscriptionPlan();
    }

    method SetName(name: Option<string>) returns (b: SubscriptionPlanBuilder)
      modifies plan
      ensures b == this && plan.State() == old(plan.State()).(name := name)
    {
      plan.name := name;
      b := this;
    }

    method SetPrice(price: real) returns (b: SubscriptionPlanBuilder)
      modifies plan
      ensures b == this && plan.State() == old(plan.State()).(price := price)
    {
      plan.price := price;
      b := this;
    }

    method SetUserLimit(limit: int) returns (b: SubscriptionPlanBuilder)
      modifies plan
      ensures b == this && plan.State() == old(plan.State()).(userLimit := limit)
    {
      plan.userLimit := limit;
      b := this;
    }

    method SetStorageLimit(gigabytes: int) returns (b: SubscriptionPlanBuilder)
      modifies plan
      ensures b == this && plan.State() == old(plan.State()).(storageLimit := gigabytes)
    {
      plan.storageLimit := gigabytes;
      b := this;
    }

    /** Turns API access on (nothing turns it off) and sets the request limit. */
    method EnableApiAccess(requestLimit: int) returns (b: SubscriptionPlanBuilder)
      modifies plan
      ensures b == this
      ensures plan.State() == old(plan.State()).(hasApiAccess := true, apiRequestLimit := requestLimit)
    {
      plan.hasApiAccess := true;
      plan.apiRequestLimit := requestLimit;
      b := this;
    }

    /** Creates the feature list if it is null, then appends to it. */
    method AddFeature(feature: string) returns (b: SubscriptionPlanBuilder)
      modifies plan
      ensures b == this
      ensures plan.State() == old(plan.State()).(features := Appended(old(plan.features), [feature]))
    {
      if plan.features.None? {
        plan.features := Some([]);
      }
      plan.features := Some(plan.features.value + [feature]);
      b := this;
    }

    /** Creates the settings table if it is null, then inserts or overwrites one key. */
    method AddCustomSetting(key: string, value: string) returns (b: SubscriptionPlanBuilder)
      modifies plan
      ensures b == this
      ensures plan.State() == old(plan.State()).(customSettings := WithEntry(old(plan.customSettings), key, value))
    {
      if plan.customSettings.None? {
        plan.customSettings := Some(map[]);
      }
      plan.customSettings := Some(plan.customSettings.value[key := value]);
      b := this;
    }

    /** `Build`: the builder's one plan object itself, neither copied nor reset. */
    method Build() returns (p: SubscriptionPlan)
      ensures p == plan
    {
      p := plan;
    }
  }

  /** The plan state a director step leaves: the four scalars written, features appended. */
  function Stepped(s: PlanState, name: string, price: real, users: int, storage: int,
                   more: seq<string>): (r: PlanState)
    ensures r.name == Some(name) && r.price == price && r.userLimit == users
    ensures r.storageLimit == storage && r.features == Appended(s.features, more)
    ensures r.hasApiAccess == s.hasApiAccess && r.apiRequestLimit == s.apiRequestLimit
    ensures r.customSettings == s.customSettings
  {
    s.(name := Some(name), price := price, userLimit := users, storageLimit := storage,
       features := Appended(s.features, more))
  }

  /** `SubscriptionPlanDirector`: fixed step chains on one shared builder. */
  class SubscriptionPlanDirector {
    const builder: SubscriptionPlanBuilder

    constructor (builder: SubscriptionPlanBuilder)
      ensures this.builder == builder
    {
      this.builder := builder;
    }

    /** "Free": price 0, 5 users, 10 GB, two features; API access left as it was. */
    method CreateFreePlan() returns (p: SubscriptionPlan)
      modifies builder.plan
      ensures p == builder.plan
      ensures p.State() == Stepped(old(builder.plan.State()), "Free", 0.0, 5, 10, ["Basic Support", "Core Features"])
    {
      ghost var s0 := builder.plan.State();
      var b := builder.SetName(Some("Free"));
      b := b.SetPrice(0.0);
      b := b.SetUserLimit(5);
      b := b.SetStorageLimit(10);
      assert b.plan.State() == Stepped(s0, "Free", 0.0, 5, 10, []).(features := s0.features);
      b := b.AddFeature("Basic Support");
      b := b.AddFeature("Core Features");
      AppendedTwice(s0.features, ["Basic Support"], ["Core Features"]);
      assert ["Basic Support"] + ["Core Features"] == ["Basic Support", "Core Features"];
      p := b.Build();
    }

    /** "Team": 49.99, 25 users, 100 GB, API limit 10000, four features appended in order. */
    method CreateTeamPlan() returns (p: SubscriptionPlan)
      modifies builder.plan
      ensures p == builder.plan
      ensures p.State() == Stepped(old(builder.plan.State()), "Team", 49.99, 25, 100, TeamFeatures())
        .(hasApiAccess := true, apiRequestLimit := 10000)
    {
      ghost var s0 := builder.plan.State();
      var b := builder.SetName(Some("Team"));
      b := b.SetPrice(49.99);
      b := b.SetUserLimit(25);
      b := b.SetStorageLimit(100);
      b := b.EnableApiAccess(10000);
      ghost var s1 := s0.(name := Some("Team"), price := 49.99, userLimit := 25, storageLimit := 100,
        hasApiAccess := true, apiRequestLimit := 10000);
      assert b.plan.State() == s1;
      b := b.AddFeature("Priority Support");
      assert b.plan.State() == s1.(features := Appended(s0.features, ["Priority Support"]));
      b := b.AddFeature("Advanced Features");
      AppendedTwice(s0.features, ["Priority Support"], ["Advanced Features"]);
      assert ["Priority Support"] + ["Advanced Features"] == ["Priority Support", "Advanced Features"];
      assert b.plan.State() == s1.(features := Appended(s0.features, ["Priority Support", "Advanced Features"]));
      b := b.AddFeature("Team Collaboration");
      AppendedTwice(s0.features, ["Priority Support", "Advanced Features"], ["Team Collaboration"]);
      assert ["Priority Support", "Advanced Features"] + ["Team Collaboration"] == ["Priority Support", "Advanced Features", "Team Collaboration"];
      assert b.plan.State() == s1.(features := Appended(s0.features, ["Priority Support", "Advanced Features", "Team Collaboration"]));
      b := b.AddFeature("Analytics");
      AppendedTwice(s0.features, ["Priority Support", "Advanced Features", "Team Collaboration"], ["Analytics"]);
      assert ["Priority Support", "Advanced Features", "Team Collaboration"] + ["Analytics"] == ["Priority Support", "Advanced Features", "Team Collaboration", "Analytics"];
      assert b.plan.State() == s1.(features := Appended(s0.features, ["Priority Support", "Advanced Features", "Team Collaboration", "Analytics"]));
      p := b.Build();
    }

    /** "Enterprise": 199.99, 100 users, 1000 GB, API limit 1000000, five features. */
    method CreateEnterprisePlan() returns (p: SubscriptionPlan)
      modifies builder.plan
      ensures p == builder.plan
      ensures p.State() == Stepped(old(builder.plan.State()), "Enterprise", 199.99, 100, 1000, EnterpriseFeatures())
        .(hasApiAccess := true, apiRequestLimit := 1000000)
    {
      ghost var s0 := builder.plan.State();
      var b := builder.SetName(Some("Enterprise"));
      b := b.SetPrice(199.99);
      b := b.SetUserLimit(100);
      b := b.SetStorageLimit(1000);
      b := b.EnableApiAccess(1000000);
      ghost var s1 := s0.(name := Some("Enterprise"), price := 199.99, userLimit := 100, storageLimit := 1000,
        hasApiAccess := true, apiRequestLimit := 1000000);
      assert b.plan.State() == s1;
      b := b.AddFeature("24/7 Support");
      assert b.plan.State() == s1.(features := Appended(s0.features, ["24/7 Support"]));
      b := b.AddFeature("All Features");
      AppendedTwice(s0.features, ["24/7 Support"], ["All Features"]);
      assert ["24/7 Support"] + ["All Features"] == ["24/7 Support", "All Features"];
      assert b.plan.State() == s1.(features := Appended(s0.features, ["24/7 Support", "All Features"]));
      b := b.AddFeature("Custom Integrations");
      AppendedTwice(s0.features, ["24/7 Support", "All Features"], ["Custom Integrations"]);
      assert ["24/7 Support", "All Features"] + ["Custom Integrations"] == ["24/7 Support", "All Features", "Custom Integrations"];
      assert b.plan.State() == s1.(features := Appended(s0.features, ["24/7 Support", "All Features", "Custom Integrations"]));
      b := b.AddFeature("Advanced Security");
      AppendedTwice(s0.features, ["24/7 Support", "All Features", "Custom Integrations"], ["Advanced Security"]);
      assert ["24/7 Support", "All Features", "Custom Integrations"] + ["Advanced Security"] == ["24/7 Support", "All Features", "Custom Integrations", "Advanced Security"];
      assert b.plan.State() == s1.(features := Appended(s0.features, ["24/7 Support", "All Features", "Custom Integrations", "Advanced Security"]));
      b := b.AddFeature("SLA Guarantee");
      AppendedTwice(s0.features, ["24/7 Support", "All Features", "Custom Integrations", "Advanced Security"], ["SLA Guarantee"]);
      assert ["24/7 Support", "All Features", "Custom Integrations", "Advanced Security"] + ["SLA Guarantee"] == ["24/7 Support", "All Features", "Custom Integrations", "Advanced Security", "SLA Guarantee"];
      assert b.plan.State() == s1.(features := Appended(s0.features, ["24/7 Support", "All Features", "Custom Integrations", "Advanced Security", "SLA Guarantee"]));
      p := b.Build();
    }
  }

  function TeamFeatures(): seq<string>
  {
    ["Priority Support", "Advanced Features", "Team Collaboration", "Analytics"]
  }

  function EnterpriseFeatures(): seq<string>
  {
    ["24/7 Support", "All Features", "Custom Integrations", "Advanced Security", "SLA Guarantee"]
  }

  /** The Free plan built on a fresh builder. */
  method FreePlan() returns (s: PlanState)
    ensures s == PlanState(Some("Free"), 0.0, 5, 10, false, 0, Some(["Basic Support", "Core Features"]), None)
  {
    var builder := new SubscriptionPlanBuilder();
    var director := new SubscriptionPlanDirector(builder);
    var p := director.CreateFreePlan();
    s := p.State();
  }

  /**
   * One director asked for the Free plan and then the Team plan hands back the same object
   * both times, and that object now carries the Team settings with all six features.
   */
  method FreeThenTeam() returns (same: bool, s: PlanState)
    ensures same
    ensures s.name == Some("Team") && s.hasApiAccess && s.apiRequestLimit == 10000
    ensures s.features == Some(["Basic Support", "Core Features"] + TeamFeatures())
    ensures |s.features.value| == 6
  {
    var builder := new SubscriptionPlanBuilder();
    var director := new SubscriptionPlanDirector(builder);
    var free := director.CreateFreePlan();
    var team := director.CreateTeamPlan();
    same := free == team;
    s := team.State();
  }
}
