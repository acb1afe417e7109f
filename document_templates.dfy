/**
 * The document example of the Prototype demo: report and e-mail templates with settable
 * texts, a metadata dictionary (and, for e-mails, a recipient list) that callers change in
 * place, and a `Clone` that copies the texts and collections but takes a new creation time.
 *
 * `DateTime.Now` is not modelled as a clock: every constructor and `Clone` takes the
 * current time as a `now` parameter, in ticks.
 */
module DocumentPrototypes {
  import opened Wrappers

  /** `ReportTemplate` (document example). */
  class ReportTemplate {
    var title: Option<string>
    var content: Option<string>
    var metadata: map<string, string>
    var createdDate: int
    var author: Option<string>

    /** The parameterless constructor: no texts, empty metadata, created at `now`. */
    constructor Empty(now: int)
      ensures title.None? && content.None? && author.None?
      ensures metadata == map[] && createdDate == now
    {
      title, content, author := None, None, None;
      metadata := map[];
      createdDate := now;
    }

    /** The three-argument constructor: the given texts, empty metadata, created at `now`. */
    constructor (title: Option<string>, content: Option<string>, author: Option<string>, now: int)
      ensures this.title == title && this.content == content && this.author == author
      ensures metadata == map[] && createdDate == now
    {
      this.title, this.content, this.author := title, content, author;
      metadata := map[];
      createdDate := now;
    }

    /** `Clone`: same texts, a copy of the metadata, and the clone's own creation time. */
    method Clone(now: int) returns (c: ReportTemplate)
      ensures fresh(c)
      ensures c.title == title && c.content == content && c.author == author
      ensures c.metadata == metadata && c.createdDate == now
    {
      c := new ReportTemplate.Empty(now);
      c.title, c.content, c.author := title, content, author;
      c.metadata := metadata;
    }
  }

  /** `EmailTemplate`. */
  class EmailTemplate {
    var title: Option<string>
    var content: Option<string>
    var metadata: map<string, string>
    var createdDate: int
    var author: Option<string>
    var subject: Option<string>
    var recipients: seq<string>

    /** The parameterless constructor: no texts, empty collections, created at `now`. */
    constructor Empty(now: int)
      ensures title.None? && content.None? && author.None? && subject.None?
      ensures metadata == map[] && recipients == [] && createdDate == now
    {
      title, content, author, subject := None, None, None, None;
      metadata, recipients := map[], [];
      createdDate := now;
    }

    /** The four-argument constructor: the given texts, empty collections, created at `now`. */
    constructor (title: Option<string>, content: Option<string>, author: Option<string>,
                 subject: Option<string>, now: int)
      ensures this.title == title && this.content == content && this.author == author
      ensures this.subject == subject
      ensures metadata == map[] && recipients == [] && createdDate == now
    {
      this.title, this.content, this.author, this.subject := title, content, author, subject;
      metadata, recipients := map[], [];
      createdDate := now;
    }

    /** `Clone`: same texts, copies of the metadata and of the recipients in order, a new time. */
    method Clone(now: int) returns (c: EmailTemplate)
      ensures fresh(c)
      ensures c.title == title && c.content == content && c.author == author
      ensures c.subject == subject
      ensures c.metadata == metadata && c.recipients == recipients && c.createdDate == now
    {
      c := new EmailTemplate.Empty(now);
      c.title, c.content, c.author, c.subject := title, content, author, subject;
      c.metadata, c.recipients := metadata, recipients;
    }
  }

  /**
   * A clone's collections are its own: after cloning, a recipient added to and a metadata
   * entry written in the clone leave the original's collections exactly as they were.
   */
  method CustomiseEmail(original: EmailTemplate, now: int, recipient: string, key: string, value: string)
    returns (c: EmailTemplate)
    ensures fresh(c)
    ensures c.recipients == original.recipients + [recipient]
    ensures c.metadata == original.metadata[key := value]
    ensures original.recipients == old(original.recipients) && original.metadata == old(original.metadata)
  {
    c := original.Clone(now);
    c.recipients := c.recipients + [recipient];
    c.metadata := c.metadata[key := value];
  }

  /** The same for a report template's metadata. */
  method CustomiseReport(original: ReportTemplate, now: int, key: string, value: string)
    returns (c: ReportTemplate)
    ensures fresh(c)
    ensures c.metadata == original.metadata[key := value]
    ensures original.metadata == old(original.metadata)
  {
    c := original.Clone(now);
    c.metadata := c.metadata[key := value];
  }
}
