# Indigenous job platform: a verified model of the job-search backend

This project models `IndigenousJobPlatform`, the class that sits between a
job-posting web front end and a remote talent-search provider (Google Cloud
Talent Solution). The platform holds two entity-path slots, `tenant_path` and
`company_path`. Both start empty, and they are filled from the names the
provider gives to the tenant and the company it creates. It builds job records
from a caller's `job_details` mapping, filling defaults for absent optional
keys. It also turns a query and an optional location into a job query and maps
the provider's matches to flat four-field summaries.

The remote clients are not modelled. Each remote call becomes a `reply`
parameter: the provider's answer, either a name, a job or a sequence of jobs,
or the error the provider raised. The platform re-raises that error unchanged,
as the source's `except ...: raise` does. The requests the platform sends are
recorded in a ghost log `sent`. This shows what was asked of the provider and
that a job with a missing required key is rejected before any request is sent.

Files:
- `wrappers.dfy`: `Option` and `Result`.
- `job_platform.dfy`: the records, job construction (`BuildJob`), query
  construction (`QueryFor`), result mapping (`Summarize`, `Summaries`,
  `MapMatches`) and the class `IndigenousJobPlatform`.

Where the design description of the system and the code disagree, the model
follows the code:
- The code does not check that `title` or `description` is non-empty. Only a
  missing key fails, with a `KeyError`.
- The code does not reject an empty or whitespace-only query string.
- The code raises no state error for a company created before any tenant. The
  company request is sent with no parent (`None`).
- The code has no single-tenant guard. A second `create_tenant` overwrites
  `tenant_path`.
- A match with no addresses gets the location `None`, not a "no location"
  marker string.
- The code does not validate custom attributes and does not wrap provider
  errors or mark them retryable.

## Model

| member | source | states |
|---|---|---|
| `JobPlatform.IndigenousJobPlatform.constructor` | cts_job_search_backend.py:18-35 | the project path is `"projects/" + project_id`; both the tenant and the company path start as `None`; nothing has been sent to the provider |
| `JobPlatform.IndigenousJobPlatform.CreateTenant` | cts_job_search_backend.py:47-64 | sends one create-tenant request under the project path; on success the tenant path becomes the returned name, which is also returned; on failure the provider's error is re-raised and the tenant path keeps its old value; the company path never changes |
| `JobPlatform.IndigenousJobPlatform.CreateCompany` | cts_job_search_backend.py:77-95 | sends one create-company request whose parent is the current tenant path, `None` included (no check that a tenant exists); on success the company path becomes the returned name, which is returned; on failure the error is re-raised and the company path is unchanged; the tenant path never changes |
| `JobPlatform.IndigenousJobPlatform.CreateJob` | cts_job_search_backend.py:107-131 | a missing `title` or `description` raises the key error and sends nothing to the provider; otherwise exactly one create-job request is sent, with the current tenant path as parent and the job built under the current company path, and the provider's answer is returned or its error re-raised |
| `JobPlatform.BuildJob` | cts_job_search_backend.py:108-118 | fails exactly when `title` or `description` is absent, and a missing `title` is reported first; a built job carries the current company path and the given title and description; each of the six optional fields passes through when present and takes its default (`en-US`, `[]`, `NATION`, `[]`, `{}`, `{}`) when absent |
| `JobPlatform.BuildJobRoundTrip` | cts_job_search_backend.py:108-118 | building from a mapping that gives every field of a job returns that same job: no field is lost or altered |
| `JobPlatform.AbsentKeyMeansDefault` | cts_job_search_backend.py:112-117 | leaving an optional key out builds the same job as giving its default value explicitly |
| `JobPlatform.DefaultedJobExample` | cts_job_search_backend.py:108-118 | a request with only a title, a description and one address gets language `en-US`, no benefits, region `NATION` and empty application info and custom attributes |
| `JobPlatform.QueryFor` | cts_job_search_backend.py:145-148 | the query text is passed through unchanged; there is no location filter exactly when the location is `None` or the empty string; any other location is passed through as it is |
| `JobPlatform.EmptyLocationIsNoLocation` | cts_job_search_backend.py:147 | an absent location and an empty one give the same query, with no location filter |
| `JobPlatform.Summarize` | cts_job_search_backend.py:160-166 | a summary copies the job's title, company and description; its location is absent exactly when the job has no addresses, and otherwise is the first address, so an empty address list is never indexed |
| `JobPlatform.Summaries` | cts_job_search_backend.py:158-166 | there is one summary per match, in the provider's order: the i-th summary is the summary of the i-th match |
| `JobPlatform.MapMatches` | cts_job_search_backend.py:158-168 | the appending loop returns exactly `Summaries` of the matches: same length and order, each entry the summary of the job at the same position, and an empty response gives an empty list |
| `JobPlatform.IndigenousJobPlatform.SearchJobs` | cts_job_search_backend.py:144-172 | sends one search request in job-search mode under the current tenant path, carrying `QueryFor(query, location)`; a provider error is re-raised; otherwise the result is the summaries of the matching jobs in order; neither path slot changes |

## Left out

- The three Google Cloud clients and the request and message classes are not modelled. Each remote call is replaced by the provider's reply, passed in as a parameter. Nothing is assumed about how the provider answers: its own state, such as created jobs later showing up in searches, is outside the model.
- Constructing the request and message objects is assumed not to fail. The protobuf library's own type checks are not part of this model, for example whether a bare location string is accepted as the location-filter field.
- `job_details` is modelled as a record with one optional entry per key the code reads. Other keys, which the code ignores, cannot be expressed. A key that is present with the value `None` is not modelled either: Python would pass that `None` through instead of the default.
- The enumerations `Job.JobBenefit`, `Job.PostingRegion` and `SearchJobsRequest.SearchMode` are small datatypes. Only the values the code names are spelled out; the others are opaque. Application info is an opaque mapping.
- `print` logging in every method and the unused `retry` and `os` imports are side effects with no bearing on behaviour.
- `main()` is demonstration code with fixed sample data. `app.py` is the web front end (routing, forms, templates, flash messages). Neither is part of this model.
