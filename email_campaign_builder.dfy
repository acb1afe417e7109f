/**
 * The e-mail campaign example of the Builder demo: a builder that writes every step into one
 * private campaign object and returns that same object from `Build`, and a director with
 * three fixed step chains.
 *
 * `DateTime` values are ticks (100-nanosecond units); the director's `DateTime.Now` is the
 * `now` parameter of the methods that schedule.
 */
module EmailCampaignBuilder {
  import opened Wrappers
  import opened LazyCollections

  /** Ticks in one day and in one hour. */
  const TicksPerDay: int := 864_000_000_000
  const TicksPerHour: int := 36_000_000_000

  /** The fields of an `EmailCampaign`. */
  datatype CampaignState = CampaignState(
    name: Option<string>,
    subject: Option<string>,
    fromEmail: Option<string>,
    fromName: Option<string>,
    templateHtml: Option<string>,
    recipients: Option<seq<string>>,
    personalization: Option<map<string, string>>,
    scheduledTime: int,
    trackOpens: bool,
    trackClicks: bool,
    headers: Option<map<string, string>>)

  /** A campaign nobody has written to: null texts and collections, time 0, no tracking. */
  function Blank(): CampaignState
  {
    CampaignState(None, None, None, None, None, None, None, 0, false, false, None)
  }

  /** The product: a plain object with settable fields. */
  class EmailCampaign {
    var name: Option<string>
    var subject: Option<string>
    var fromEmail: Option<string>
    var fromName: Option<string>
    var templateHtml: Option<string>
    var recipients: Option<seq<string>>
    var personalization: Option<map<string, string>>
    var scheduledTime: int
    var trackOpens: bool
    var trackClicks: bool
    var headers: Option<map<string, string>>

    function State(): CampaignState
      reads this
    {
      CampaignState(name, subject, fromEmail, fromName, templateHtml, recipients, personalization,
        scheduledTime, trackOpens, trackClicks, headers)
    }

    constructor ()
      ensures State() == Blank()
    {
      name, subject, fromEmail, fromName, templateHtml := None, None, None, None, None;
      recipients, personalization, headers := None, None, None;
      scheduledTime, trackOpens, trackClicks := 0, false, false;
    }
  }

  /** `EmailCampaignBuilder`: every step writes into `campaign` and returns this builder. */
  class Builder {
    const campaign: EmailCampaign

    constructor ()
      ensures fresh(campaign) && campaign.State() == Blank()
    {
      campaign := new EmailCampaign();
    }

    method SetName(name: Option<string>) returns (b: Builder)
      modifies campaign
      ensures b == this && campaign.State() == old(campaign.State()).(name := name)
    {
      campaign.name := name;
      b := this;
    }

    method SetSubject(subject: Option<string>) returns (b: Builder)
      modifies campaign
      ensures b == this && campaign.State() == old(campaign.State()).(subject := subject)
    {
      campaign.subject := subject;
      b := this;
    }

    /** Writes both the sender address and the sender name. */
    method SetSender(email: Option<string>, name: Option<string>) returns (b: Builder)
      modifies campaign
      ensures b == this
      ensures campaign.State() == old(campaign.State()).(fromEmail := email, fromName := name)
    {
      campaign.fromEmail := email;
      campaign.fromName := name;
      b := this;
    }

    method SetTemplate(html: Option<string>) returns (b: Builder)
      modifies campaign
      ensures b == this && campaign.State() == old(campaign.State()).(templateHtml := html)
    {
      campaign.templateHtml := html;
      b := this;
    }

    /** Creates the recipient list if it is null, then appends to it. */
    method AddRecipient(email: string) returns (b: Builder)
      modifies campaign
      ensures b == this
      ensures campaign.State() == old(campaign.State()).(recipients := Appended(old(campaign.recipients), [email]))
    {
      if campaign.recipients.None? {
        campaign.recipients := Some([]);
      }
      campaign.recipients := Some(campaign.recipients.value + [email]);
      b := this;
    }

    /** Creates the personalization table if it is null, then inserts or overwrites one key. */
    method AddPersonalization(key: string, value: string) returns (b: Builder)
      modifies campaign
      ensures b == this
      ensures campaign.State()
        == old(campaign.State()).(personalization := WithEntry(old(campaign.personalization), key, value))
    {
      if campaign.personalization.None? {
        campaign.personalization := Some(map[]);
      }
      campaign.personalization := Some(campaign.personalization.value[key := value]);
      b := this;
    }

    method Schedule(time: int) returns (b: Builder)
      modifies campaign
      ensures b == this && campaign.State() == old(campaign.State()).(scheduledTime := time)
    {
      campaign.scheduledTime := time;
      b := this;
    }

    /** Both flags are on unless the caller says otherwise. */
    method EnableTracking(opens: bool := true, clicks: bool := true) returns (b: Builder)
      modifies campaign
      ensures b == this
      ensures campaign.State() == old(campaign.State()).(trackOpens := opens, trackClicks := clicks)
    {
      campaign.trackOpens := opens;
      campaign.trackClicks := clicks;
      b := this;
    }

    /** Creates the header table if it is null, then inserts or overwrites one key. */
    method AddHeader(key: string, value: string) returns (b: Builder)
      modifies campaign
      ensures b == this
      ensures campaign.State() == old(campaign.State()).(headers := WithEntry(old(campaign.headers), key, value))
    {
      if campaign.headers.None? {
        campaign.headers := Some(map[]);
      }
      campaign.headers := Some(campaign.headers.value[key := value]);
      b := this;
    }

    /** `Build`: the builder's one campaign object itself, neither copied nor reset. */
    method Build() returns (c: EmailCampaign)
      ensures c == campaign
    {
      c := campaign;
    }
  }

  /** The four texts every director chain writes first. */
  function Headed(s: CampaignState, name: string, subject: string, email: string, sender: string,
                  html: string): (r: CampaignState)
    ensures r.recipients == s.recipients && r.personalization == s.personalization
    ensures r.headers == s.headers && r.scheduledTime == s.scheduledTime
  {
    s.(name := Some(name), subject := Some(subject), fromEmail := Some(email), fromName := Some(sender),
       templateHtml := Some(html))
  }

  /** The promotional template with the code spliced in. */
  function PromoHtml(promoCode: string): (html: string)
    ensures |html| == |promoCode| + 51
    ensures html[..34] == "<h1>Special Offer</h1><p>Use code "
    ensures html[34..34 + |promoCode|] == promoCode
    ensures html[34 + |promoCode|..] == " for 20% off!</p>"
  {
    "<h1>Special Offer</h1><p>Use code " + promoCode + " for 20% off!</p>"
  }

  /** `EmailCampaignDirector`: fixed step chains on one shared builder. */
  class Director {
    const builder: Builder

    constructor (builder: Builder)
      ensures this.builder == builder
    {
      this.builder := builder;
    }

    /** The welcome campaign: texts, a firstName placeholder, both tracking flags on. */
    method CreateWelcomeEmail() returns (c: EmailCampaign)
      modifies builder.campaign
      ensures c == builder.campaign
      ensures c.State() == Headed(old(builder.campaign.State()), "Welcome Campaign", "Welcome to Our Service!",
          "welcome@company.com", "Company Name", "<h1>Welcome!</h1><p>Thank you for joining us...</p>")
        .(personalization := WithEntry(old(builder.campaign.personalization), "firstName", "{{firstName}}"),
          trackOpens := true, trackClicks := true)
    {
      var b := builder.SetName(Some("Welcome Campaign"));
      b := b.SetSubject(Some("Welcome to Our Service!"));
      b := b.SetSender(Some("welcome@company.com"), Some("Company Name"));
      b := b.SetTemplate(Some("<h1>Welcome!</h1><p>Thank you for joining us...</p>"));
      b := b.AddPersonalization("firstName", "{{firstName}}");
      b := b.EnableTracking();
      c := b.Build();
    }

    /** The newsletter: texts, both tracking flags on, scheduled one day after `now`. */
    method CreateNewsletterCampaign(now: int) returns (c: EmailCampaign)
      modifies builder.campaign
      ensures c == builder.campaign
      ensures c.State() == Headed(old(builder.campaign.State()), "Monthly Newsletter", "Your Monthly Update",
          "news@company.com", "Company Newsletter", "<h1>Monthly Newsletter</h1><p>Here's what's new...</p>")
        .(trackOpens := true, trackClicks := true, scheduledTime := now + TicksPerDay)
    {
      var b := builder.SetName(Some("Monthly Newsletter"));
      b := b.SetSubject(Some("Your Monthly Update"));
      b := b.SetSender(Some("news@company.com"), Some("Company Newsletter"));
      b := b.SetTemplate(Some("<h1>Monthly Newsletter</h1><p>Here's what's new...</p>"));
      b := b.EnableTracking();
      b := b.Schedule(now + TicksPerDay);
      c := b.Build();
    }

    /**
     * The promotional campaign: the code in the template and as a placeholder, a campaign-type
     * header, both tracking flags on, scheduled two hours after `now`.
     */
    method CreatePromotionalCampaign(promoCode: string, now: int) returns (c: EmailCampaign)
      modifies builder.campaign
      ensures c == builder.campaign
      ensures c.State() == Headed(old(builder.campaign.State()), "Special Offer", "Limited Time Offer Inside!",
          "promotions@company.com", "Special Offers", PromoHtml(promoCode))
        .(personalization := WithEntry(old(builder.campaign.personalization), "promoCode", promoCode),
          trackOpens := true, trackClicks := true,
          headers := WithEntry(old(builder.campaign.headers), "X-Campaign-Type", "promotional"),
          scheduledTime := now + 2 * TicksPerHour)
    {
      var b := builder.SetName(Some("Special Offer"));
      b := b.SetSubject(Some("Limited Time Offer Inside!"));
      b := b.SetSender(Some("promotions@company.com"), Some("Special Offers"));
      b := b.SetTemplate(Some(PromoHtml(promoCode)));
      b := b.AddPersonalization("promoCode", promoCode);
      b := b.EnableTracking(true, true);
      b := b.AddHeader("X-Campaign-Type", "promotional");
      b := b.Schedule(now + 2 * TicksPerHour);
      c := b.Build();
    }
  }

  /**
   * A fresh director asked for the welcome and then the promotional campaign returns the same
   * object twice; it keeps both placeholders and still has no recipient list.
   */
  method WelcomeThenPromotional(promoCode: string, now: int) returns (same: bool, s: CampaignState)
    ensures same
    ensures s.personalization.Some?
    ensures "firstName" in s.personalization.value && s.personalization.value["firstName"] == "{{firstName}}"
    ensures "promoCode" in s.personalization.value && s.personalization.value["promoCode"] == promoCode
    ensures s.recipients.None? && s.name == Some("Special Offer")
  {
    var builder := new Builder();
    var director := new Director(builder);
    var welcome := director.CreateWelcomeEmail();
    var promo := director.CreatePromotionalCampaign(promoCode, now);
    same := welcome == promo;
    s := promo.State();
  }

  /**
   * All three director chains on a fresh builder: none of them adds a recipient, so the list
   * is still null; the last chain's texts and schedule are the ones left.
   */
  method DirectorsAddNoRecipients(promoCode: string, now: int) returns (s: CampaignState)
    ensures s.recipients.None?
    ensures s.name == Some("Special Offer") && s.scheduledTime == now + 2 * TicksPerHour
    ensures s.headers == Some(map["X-Campaign-Type" := "promotional"])
  {
    var builder := new Builder();
    var director := new Director(builder);
    var welcome := director.CreateWelcomeEmail();
    var newsletter := director.CreateNewsletterCampaign(now);
    var promo := director.CreatePromotionalCampaign(promoCode, now);
    s := promo.State();
  }
}
