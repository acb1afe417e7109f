/**
 * The report example of the Prototype demo: sales and financial report templates whose
 * `Add*` methods change their own lists and parameter table in place, whose `Clone` gives
 * a new template with copies of every collection, and a registry that keeps templates by
 * key and hands out clones of them.
 *
 * Each list is a `seq` field and each dictionary a `map` field of the template object;
 * a template's collections therefore belong to that template alone, which is exactly
 * what `Clone`'s fresh collections achieve in the source.
 */
module ReportPrototypes {
  import opened Wrappers

  /** The state of a sales report template, with its fields in source order. */
  datatype SalesState = SalesState(
    title: Option<string>,
    parameters: map<string, string>,
    dataSources: seq<string>,
    charts: seq<string>,
    period: Option<string>,
    productCategories: seq<string>,
    regions: seq<string>)

  /** `SalesReportTemplate`. */
  class SalesReportTemplate {
    /** `ReportType` is the same text on every sales template. */
    const reportType: string := "Sales"
    var title: Option<string>
    var parameters: map<string, string>
    var dataSources: seq<string>
    var charts: seq<string>
    var period: Option<string>
    var productCategories: seq<string>
    var regions: seq<string>

    function State(): SalesState
      reads this
    {
      SalesState(title, parameters, dataSources, charts, period, productCategories, regions)
    }

    /** A new template has no title or period and every collection empty. */
    constructor ()
      ensures State() == SalesState(None, map[], [], [], None, [], [])
    {
      title, period := None, None;
      parameters := map[];
      dataSources, charts, productCategories, regions := [], [], [], [];
    }

    /** `Clone`: a new template with the same title and period and copies of all five collections. */
    method Clone() returns (c: SalesReportTemplate)
      ensures fresh(c) && c.State() == State()
    {
      c := new SalesReportTemplate();
      c.title, c.period := title, period;
      c.parameters := parameters;
      c.dataSources, c.charts := dataSources, charts;
      c.productCategories, c.regions := productCategories, regions;
    }

    /** `AddDataSource`: appended at the end of the data sources. */
    method AddDataSource(source: string)
      modifies this
      ensures State() == old(State()).(dataSources := old(dataSources) + [source])
    {
      dataSources := dataSources + [source];
    }

    /** `AddChart`: appended at the end of the charts. */
    method AddChart(chartType: string)
      modifies this
      ensures State() == old(State()).(charts := old(charts) + [chartType])
    {
      charts := charts + [chartType];
    }

    /** `AddParameter`: one key inserted or overwritten. */
    method AddParameter(key: string, value: string)
      modifies this
      ensures State() == old(State()).(parameters := old(parameters)[key := value])
    {
      parameters := parameters[key := value];
    }

    /** `AddProductCategory`: appended at the end of the product categories. */
    method AddProductCategory(category: string)
      modifies this
      ensures State() == old(State()).(productCategories := old(productCategories) + [category])
    {
      productCategories := productCategories + [category];
    }

    /** `AddRegion`: appended at the end of the regions. */
    method AddRegion(region: string)
      modifies this
      ensures State() == old(State()).(regions := old(regions) + [region])
    {
      regions := regions + [region];
    }
  }

  /** The state of a financial report template, with its fields in source order. */
  datatype FinancialState = FinancialState(
    title: Option<string>,
    parameters: map<string, string>,
    dataSources: seq<string>,
    charts: seq<string>,
    fiscalPeriod: Option<string>,
    accountingStandard: Option<string>,
    currencyConversions: seq<string>)

  /** `FinancialReportTemplate`. No method of it adds to the currency conversions. */
  class FinancialReportTemplate {
    const reportType: string := "Financial"
    var title: Option<string>
    var parameters: map<string, string>
    var dataSources: seq<string>
    var charts: seq<string>
    var fiscalPeriod: Option<string>
    var accountingStandard: Option<string>
    var currencyConversions: seq<string>

    function State(): FinancialState
      reads this
    {
      FinancialState(title, parameters, dataSources, charts, fiscalPeriod, accountingStandard,
        currencyConversions)
    }

    /** A new template has no title, period or standard and every collection empty. */
    constructor ()
      ensures State() == FinancialState(None, map[], [], [], None, None, [])
    {
      title, fiscalPeriod, accountingStandard := None, None, None;
      parameters := map[];
      dataSources, charts, currencyConversions := [], [], [];
    }

    /** `Clone`: a new template with the same three texts and copies of all four collections. */
    method Clone() returns (c: FinancialReportTemplate)
      ensures fresh(c) && c.State() == State()
    {
      c := new FinancialReportTemplate();
      c.title, c.fiscalPeriod, c.accountingStandard := title, fiscalPeriod, accountingStandard;
      c.parameters := parameters;
      c.dataSources, c.charts, c.currencyConversions := dataSources, charts, currencyConversions;
    }

    /** `AddDataSource`: appended at the end of the data sources. */
    method AddDataSource(source: string)
      modifies this
      ensures State() == old(State()).(dataSources := old(dataSources) + [source])
    {
      dataSources := dataSources + [source];
    }

    /** `AddChart`: appended at the end of the charts. */
    method AddChart(chartType: string)
      modifies this
      ensures State() == old(State()).(charts := old(charts) + [chartType])
    {
      charts := charts + [chartType];
    }

    /** `AddParameter`: one key inserted or overwritten. */
    method AddParameter(key: string, value: string)
      modifies this
      ensures State() == old(State()).(parameters := old(parameters)[key := value])
    {
      parameters := parameters[key := value];
    }
  }

  /** `IReportTemplate`: a registered template is one of the two kinds. */
  datatype ReportTemplate =
    | Sales(sales: SalesReportTemplate)
    | Financial(financial: FinancialReportTemplate)

  /** The template's `ReportType`. */
  function ReportType(t: ReportTemplate): (r: string)
    ensures r == (if t.Sales? then "Sales" else "Financial")
  {
    match t
    case Sales(s) => s.reportType
    case Financial(f) => f.reportType
  }

  /** Two templates of the same kind whose states are equal. */
  predicate SameContents(a: ReportTemplate, b: ReportTemplate)
    reads if a.Sales? then {a.sales} else {a.financial}
    reads if b.Sales? then {b.sales} else {b.financial}
  {
    match (a, b)
    case (Sales(x), Sales(y)) => x.State() == y.State()
    case (Financial(x), Financial(y)) => x.State() == y.State()
    case _ => false
  }

  /** The object a template value refers to. */
  function Object(t: ReportTemplate): object
  {
    if t.Sales? then t.sales else t.financial
  }

  /** `ICloneable.Clone` through the interface. */
  method CloneTemplate(t: ReportTemplate) returns (c: ReportTemplate)
    ensures fresh(Object(c)) && SameContents(c, t)
  {
    match t
    case Sales(s) =>
      var copy := s.Clone();
      c := Sales(copy);
    case Financial(f) =>
      var copy := f.Clone();
      c := Financial(copy);
  }

  /** The exceptions the registry throws. */
  datatype RegistryError =
    | ArgumentNull(paramName: string)
    | KeyNotFound(message: string)

  /** The message of the `KeyNotFoundException` for `key`. */
  function NotFoundMessage(key: string): (m: string)
    ensures |m| == |key| + 31
    ensures m[..19] == "Template with key '" && m[|m| - 12..] == "' not found."
    ensures m[19..|m| - 12] == key
  {
    "Template with key '" + key + "' not found."
  }

  /** `ReportTemplateRegistry`: templates kept by key. */
  class ReportTemplateRegistry {
    var templates: map<string, ReportTemplate>

    /** A new registry is empty. */
    constructor ()
      ensures templates == map[]
    {
      templates := map[];
    }

    /**
     * `RegisterTemplate`: a null or empty key is refused first, then a null template;
     * otherwise the key is inserted or overwritten. A refused call changes nothing.
     */
    method RegisterTemplate(key: Option<string>, template: Option<ReportTemplate>)
      returns (outcome: Outcome<RegistryError>)
      modifies this
      ensures (key.None? || key.value == "") ==> outcome == Fail(ArgumentNull("key"))
      ensures key.Some? && key.value != "" && template.None? ==> outcome == Fail(ArgumentNull("template"))
      ensures outcome.Fail? ==> templates == old(templates)
      ensures outcome.Pass? <==> key.Some? && key.value != "" && template.Some?
      ensures outcome.Pass? ==> templates == old(templates)[key.value := template.value]
    {
      if key.None? || key.value == "" {
        return Fail(ArgumentNull("key"));
      }
      if template.None? {
        return Fail(ArgumentNull("template"));
      }
      templates := templates[key.value := template.value];
      outcome := Pass;
    }

    /**
     * `GetTemplate`: a null key is refused by the dictionary; an absent key is a
     * `KeyNotFoundException`; a present key gives a new clone of the stored template,
     * never the stored object. The table is left as it was.
     */
    method GetTemplate(key: Option<string>) returns (r: Result<ReportTemplate, RegistryError>)
      ensures key.None? ==> r == Failure(ArgumentNull("key"))
      ensures key.Some? && key.value !in templates ==> r == Failure(KeyNotFound(NotFoundMessage(key.value)))
      ensures key.Some? && key.value in templates ==>
        r.Success? && fresh(Object(r.value)) && SameContents(r.value, templates[key.value])
    {
      if key.None? {
        return Failure(ArgumentNull("key"));
      }
      if key.value !in templates {
        return Failure(KeyNotFound(NotFoundMessage(key.value)));
      }
      var copy := CloneTemplate(templates[key.value]);
      r := Success(copy);
    }
  }

  /**
   * A clone handed out by the registry is independent of the registered template: adding a
   * chart to the clone leaves the registered one as it was.
   */
  method CustomiseClone(registry: ReportTemplateRegistry, key: string, chart: string)
    returns (r: Result<ReportTemplate, RegistryError>)
    requires key in registry.templates && registry.templates[key].Sales?
    ensures r.Success? && r.value.Sales? && fresh(r.value.sales)
    ensures r.value.sales.charts == old(registry.templates[key].sales.charts) + [chart]
    ensures registry.templates == old(registry.templates)
    ensures registry.templates[key].sales.State() == old(registry.templates[key].sales.State())
  {
    r := registry.GetTemplate(Some(key));
    var copy := r.value.sales;
    copy.AddChart(chart);
  }
}
