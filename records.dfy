/**
 * The rows of the `clients`, `projects` and `time_entries` tables as the
 * screens receive them, with the joined rows the queries attach.
 * Money and hours are exact reals; a nullable column is an `Option`.
 */
module Records {

  import opened Collections

  datatype Client = Client(id: string, name: string, hourlyRate: real, createdAt: string)

  /** `hourlyRate` is `None` for a project that inherits its client's rate. */
  datatype Project = Project(
    id: string,
    clientId: string,
    name: string,
    hourlyRate: Option<real>,
    createdAt: string,
    client: Option<Client>)

  /**
   * A time entry. `date` is the `YYYY-MM-DD` column and `day` the number of
   * that calendar day counted from 1970-01-01. `client` is the join of the
   * time-entry page's query, `project` (with its client) the dashboard's.
   */
  datatype TimeEntry = TimeEntry(
    id: string,
    clientId: string,
    date: string,
    day: int,
    hours: real,
    description: Option<string>,
    createdAt: string,
    client: Option<Client>,
    project: Option<Project>)
}
