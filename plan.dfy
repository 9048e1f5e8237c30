/** The plan's data holders of `plan_b/plan.py`: releases, the issue data source and the plan itself. */
module Plan {
  import opened Dates
  import opened Teams
  import opened Issues

  /** `ProductRelease(name, data_query)`: a release starts with no issues. */
  datatype ProductRelease = ProductRelease(name: string, dataQuery: string, issues: seq<Issue>)

  /** `JiraIssuesDataSource(name, URL(url))`: the only kind of issue data source. */
  datatype DataSource = DataSource(name: string, url: string)

  /** `XlsxCapacityPlan`: what `make_capacity_plan_from_config` assembles. */
  datatype CapacityPlan = CapacityPlan(
    outputFile: string,
    start: Date,
    end: Date,
    calendar: ProductionCalendar,
    dataSource: DataSource,
    teams: seq<Team>,
    releases: seq<ProductRelease>)
}
