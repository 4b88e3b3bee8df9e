/**
 * The job platform facade over a remote talent-search provider: two entity-path
 * slots (tenant, company), job-record construction with defaults, and search
 * query construction with result mapping.
 *
 * The provider's three clients are not modelled; each remote call is replaced by
 * the reply the provider gives (a parameter), and the requests the platform sends
 * are recorded in the ghost log `sent`.
 */
module JobPlatform {
  import opened Wrappers

  // ---------------------------------------------------------------------------
  // Records exchanged with the provider
  // ---------------------------------------------------------------------------

  /** The provider's job-benefit enumeration; values other than the two the platform names are opaque. */
  datatype JobBenefit = PaidTimeOff | HealthInsurance | OtherBenefit(name: string)

  /** The provider's posting-region enumeration; only the nation-wide value is named by the platform. */
  datatype PostingRegion = Nation | OtherRegion(name: string)

  /** A custom attribute of a job: its string values and whether search may filter on it. */
  datatype CustomAttribute = CustomAttribute(stringValues: seq<string>, filterable: bool)

  /** Application info is passed to the provider as a mapping; its fields are opaque here. */
  type ApplicationInfo = map<string, seq<string>>

  /** A job record, as the platform builds it and as the provider returns it in search results. */
  datatype Job = Job(
    company: Option<string>,
    title: string,
    description: string,
    languageCode: string,
    benefits: seq<JobBenefit>,
    postingRegion: PostingRegion,
    addresses: seq<string>,
    applicationInfo: ApplicationInfo,
    customAttributes: map<string, CustomAttribute>)

  /** The caller's `job_details` mapping: one entry per key the platform reads, `None` when the key is absent. */
  datatype JobDetails = JobDetails(
    title: Option<string>,
    description: Option<string>,
    languageCode: Option<string>,
    benefits: Option<seq<JobBenefit>>,
    postingRegion: Option<PostingRegion>,
    addresses: Option<seq<string>>,
    applicationInfo: Option<ApplicationInfo>,
    customAttributes: Option<map<string, CustomAttribute>>)

  datatype Tenant = Tenant(externalId: string)

  datatype Company = Company(displayName: string, externalId: string)

  /** A job query: the free text and the location filter, if any. */
  datatype JobQuery = JobQuery(query: string, locationFilters: Option<string>)

  datatype SearchMode = JobSearch

  /** A request the platform sends to the provider. A parent that was never set is `None`. */
  datatype Request =
    | CreateTenantRequest(project: string, tenant: Tenant)
    | CreateCompanyRequest(parent: Option<string>, company: Company)
    | CreateJobRequest(parent: Option<string>, job: Job)
    | SearchJobsRequest(parent: Option<string>, jobQuery: JobQuery, searchMode: SearchMode)

  /** The flat summary of one search match handed back to the caller. */
  datatype JobSummary = JobSummary(
    title: string,
    company: Option<string>,
    description: string,
    location: Option<string>)

  /**
   * The errors the platform raises: a `KeyError` for a required `job_details`
   * key, or whatever the provider raised, which the platform re-raises unchanged.
   */
  datatype Error = MissingKey(key: string) | ProviderError(cause: string)

  // ---------------------------------------------------------------------------
  // Job-record construction
  // ---------------------------------------------------------------------------

  const DefaultLanguageCode: string := "en-US"
  const DefaultPostingRegion: PostingRegion := Nation

  /** An absent key yields `default`; a present key passes its value through unchanged. */
  ghost predicate TakesOrDefaults<T>(given: Option<T>, default: T, actual: T) {
    (given.None? ==> actual == default) && (given.Some? ==> actual == given.value)
  }

  /** Every optional field of `job` is the caller's value when given and the fixed default otherwise. */
  ghost predicate DefaultsApplied(details: JobDetails, job: Job) {
    && TakesOrDefaults(details.languageCode, DefaultLanguageCode, job.languageCode)
    && TakesOrDefaults(details.benefits, [], job.benefits)
    && TakesOrDefaults(details.postingRegion, DefaultPostingRegion, job.postingRegion)
    && TakesOrDefaults(details.addresses, [], job.addresses)
    && TakesOrDefaults(details.applicationInfo, map[], job.applicationInfo)
    && TakesOrDefaults(details.customAttributes, map[], job.customAttributes)
  }

  /**
   * The job record `create_job` builds from `details` under the current company
   * path. The keyword arguments are evaluated in order, so a missing `title`
   * raises before a missing `description` is looked at.
   */
  function BuildJob(company: Option<string>, details: JobDetails): (r: Result<Job, Error>)
    ensures details.title.None? ==> r == Failure(MissingKey("title"))
    ensures details.title.Some? && details.description.None? ==> r == Failure(MissingKey("description"))
    ensures r.Success? <==> details.title.Some? && details.description.Some?
    ensures r.Success? ==>
      && r.value.company == company
      && Some(r.value.title) == details.title
      && Some(r.value.description) == details.description
      && DefaultsApplied(details, r.value)
  {
    match (details.title, details.description)
    case (None, _) => Failure(MissingKey("title"))
    case (Some(_), None) => Failure(MissingKey("description"))
    case (Some(title), Some(description)) =>
      Success(Job(
        company,
        title,
        description,
        details.languageCode.GetOr(DefaultLanguageCode),
        details.benefits.GetOr([]),
        details.postingRegion.GetOr(DefaultPostingRegion),
        details.addresses.GetOr([]),
        details.applicationInfo.GetOr(map[]),
        details.customAttributes.GetOr(map[])))
  }

  /** The `job_details` mapping that spells out every field of `job`. */
  function DetailsOf(job: Job): JobDetails {
    JobDetails(
      Some(job.title), Some(job.description), Some(job.languageCode), Some(job.benefits),
      Some(job.postingRegion), Some(job.addresses), Some(job.applicationInfo), Some(job.customAttributes))
  }

  /** `details` with every absent optional key filled in with its default. */
  function WithDefaults(details: JobDetails): JobDetails {
    details.(
      languageCode := Some(details.languageCode.GetOr(DefaultLanguageCode)),
      benefits := Some(details.benefits.GetOr([])),
      postingRegion := Some(details.postingRegion.GetOr(DefaultPostingRegion)),
      addresses := Some(details.addresses.GetOr([])),
      applicationInfo := Some(details.applicationInfo.GetOr(map[])),
      customAttributes := Some(details.customAttributes.GetOr(map[])))
  }

  /** Building from a job's own fields gives that job back: nothing is lost or altered on the way. */
  lemma BuildJobRoundTrip(job: Job)
    ensures BuildJob(job.company, DetailsOf(job)) == Success(job)
  {
  }

  /** Leaving an optional key out and giving its default explicitly build the same job. */
  lemma AbsentKeyMeansDefault(company: Option<string>, details: JobDetails)
    ensures BuildJob(company, WithDefaults(details)) == BuildJob(company, details)
  {
  }

  /** A request with title, description and one address gets every other field defaulted. */
  lemma DefaultedJobExample()
    ensures
      var details := JobDetails(Some("Cultural Program Manager"), Some("Manage programs."),
                                None, None, None, Some(["Toronto, ON"]), None, None);
      BuildJob(Some("c"), details) == Success(Job(Some("c"), "Cultural Program Manager", "Manage programs.",
                                                  "en-US", [], Nation, ["Toronto, ON"], map[], map[]))
  {
  }

  // ---------------------------------------------------------------------------
  // Search query construction and result mapping
  // ---------------------------------------------------------------------------

  /** The query `search_jobs` sends: a falsy location (absent or empty) becomes no filter at all. */
  function QueryFor(queryString: string, location: Option<string>): (q: JobQuery)
    ensures q.query == queryString
    ensures q.locationFilters.None? <==> location.None? || location.value == ""
    ensures q.locationFilters.Some? ==> q.locationFilters == location
  {
    JobQuery(queryString, if location.Some? && location.value != "" then location else None)
  }

  /** An absent location and an empty one give the same query. */
  lemma EmptyLocationIsNoLocation(queryString: string)
    ensures QueryFor(queryString, None) == QueryFor(queryString, Some(""))
    ensures QueryFor(queryString, None).locationFilters == None
  {
  }

  /** The summary of one matched job: its first address is its location, and an empty address list is never indexed. */
  function Summarize(job: Job): (s: JobSummary)
    ensures s.title == job.title && s.company == job.company && s.description == job.description
    ensures s.location.None? <==> job.addresses == []
    ensures s.location.Some? ==> s.location.value == job.addresses[0]
  {
    JobSummary(job.title, job.company, job.description,
               if job.addresses != [] then Some(job.addresses[0]) else None)
  }

  /** The summaries of a search response's matches, one per match, in the provider's order. */
  function Summaries(matches: seq<Job>): (r: seq<JobSummary>)
    ensures |r| == |matches|
    ensures forall i :: 0 <= i < |matches| ==> r[i] == Summarize(matches[i])
  {
    if matches == [] then [] else [Summarize(matches[0])] + Summaries(matches[1..])
  }

  /** The loop of `search_jobs` that appends one summary per matching job. */
  method MapMatches(matches: seq<Job>) returns (matching: seq<JobSummary>)
    ensures matching == Summaries(matches)
    ensures |matching| == |matches|
    ensures forall i :: 0 <= i < |matches| ==> matching[i] == Summarize(matches[i])
  {
    matching := [];
    for i := 0 to |matches|
      invariant |matching| == i
      invariant forall k :: 0 <= k < i ==> matching[k] == Summarize(matches[k])
    {
      matching := matching + [Summarize(matches[i])];
    }
  }

  // ---------------------------------------------------------------------------
  // The platform object
  // ---------------------------------------------------------------------------

  class IndigenousJobPlatform {
    const projectId: string
    const projectPath: string
    /** The name of the last tenant created, `None` until one is. */
    var tenantPath: Option<string>
    /** The name of the last company created, `None` until one is. */
    var companyPath: Option<string>
    /** The requests sent to the provider so far, oldest first. */
    ghost var sent: seq<Request>

    constructor (projectId: string)
      ensures this.projectId == projectId && projectPath == "projects/" + projectId
      ensures tenantPath == None && companyPath == None
      ensures sent == []
    {
      this.projectId := projectId;
      projectPath := "projects/" + projectId;
      tenantPath := None;
      companyPath := None;
      sent := [];
    }

    /**
     * Asks the provider for a tenant under the project. `reply` is the provider's
     * answer: the created tenant's name, or the error it raised, which is re-raised.
     */
    method CreateTenant(externalId: string, reply: Result<string, Error>) returns (r: Result<string, Error>)
      modifies this`tenantPath, this`sent
      ensures sent == old(sent) + [CreateTenantRequest(projectPath, Tenant(externalId))]
      ensures r == reply
      ensures reply.Success? ==> tenantPath == Some(reply.value)
      ensures reply.Failure? ==> tenantPath == old(tenantPath)
      ensures companyPath == old(companyPath)
    {
      sent := sent + [CreateTenantRequest(projectPath, Tenant(externalId))];
      match reply
      case Failure(e) =>
        r := Failure(e);
      case Success(name) =>
        tenantPath := Some(name);
        r := Success(name);
    }

    /**
     * Asks the provider for a company under the current tenant path, whatever it
     * is: no tenant need exist, and then the parent sent is `None`.
     */
    method CreateCompany(companyName: string, externalId: string, reply: Result<string, Error>)
      returns (r: Result<string, Error>)
      modifies this`companyPath, this`sent
      ensures sent == old(sent) + [CreateCompanyRequest(tenantPath, Company(companyName, externalId))]
      ensures r == reply
      ensures reply.Success? ==> companyPath == Some(reply.value)
      ensures reply.Failure? ==> companyPath == old(companyPath)
      ensures tenantPath == old(tenantPath)
    {
      sent := sent + [CreateCompanyRequest(tenantPath, Company(companyName, externalId))];
      match reply
      case Failure(e) =>
        r := Failure(e);
      case Success(name) =>
        companyPath := Some(name);
        r := Success(name);
    }

    /**
     * Builds the job record under the current company and, only if that succeeds,
     * sends it under the current tenant. `reply` is the provider's answer to
     * that request; it is returned as it is.
     */
    method CreateJob(details: JobDetails, reply: Result<Job, Error>) returns (r: Result<Job, Error>)
      modifies this`sent
      ensures details.title.None? || details.description.None? ==>
        sent == old(sent) && r == BuildJob(companyPath, details)
      ensures details.title.Some? && details.description.Some? ==>
        && BuildJob(companyPath, details).Success?
        && sent == old(sent) + [CreateJobRequest(tenantPath, BuildJob(companyPath, details).value)]
        && r == reply
    {
      var built := BuildJob(companyPath, details);
      match built
      case Failure(e) =>
        r := Failure(e);
      case Success(job) =>
        sent := sent + [CreateJobRequest(tenantPath, job)];
        r := reply;
    }

    /**
     * Searches under the current tenant. `reply` is the provider's answer: the
     * matching jobs in its order, or the error it raised, which is re-raised.
     */
    method SearchJobs(queryString: string, location: Option<string>, reply: Result<seq<Job>, Error>)
      returns (r: Result<seq<JobSummary>, Error>)
      modifies this`sent
      ensures sent == old(sent) + [SearchJobsRequest(tenantPath, QueryFor(queryString, location), JobSearch)]
      ensures reply.Failure? ==> r == Failure(reply.error)
      ensures reply.Success? ==> r == Success(Summaries(reply.value))
    {
      var jobQuery := QueryFor(queryString, location);
      sent := sent + [SearchJobsRequest(tenantPath, jobQuery, JobSearch)];
      match reply
      case Failure(e) =>
        r := Failure(e);
      case Success(matches) =>
        var matching := MapMatches(matches);
        r := Success(matching);
    }
  }

  /** A company created before any tenant is sent with no parent, and the slots then fill in either order. */
  method CompanyBeforeTenant() {
    var platform := new IndigenousJobPlatform("p");
    var company := platform.CreateCompany("Corp", "c-1", Success("projects/p/tenants/t/companies/c"));
    assert platform.sent == [CreateCompanyRequest(None, Company("Corp", "c-1"))];
    assert platform.companyPath == Some("projects/p/tenants/t/companies/c") && platform.tenantPath == None;
    var tenant := platform.CreateTenant("t-1", Failure(ProviderError("unavailable")));
    assert tenant.Failure? && platform.tenantPath == None;
    tenant := platform.CreateTenant("t-1", Success("projects/p/tenants/t"));
    assert platform.tenantPath == Some("projects/p/tenants/t");
    assert platform.companyPath == Some("projects/p/tenants/t/companies/c");
  }
}
