/** The health-log entry and the view modes of the health-log page. */
module HealthLogTypes {
  import opened Outcome

  datatype Status = Active | Disabled

  /** `FilterMode` of the page: `'last7' | 'last30' | 'thisMonth' | 'all'`. */
  datatype ViewMode = Last7 | Last30 | ThisMonth | AllDays

  /** One day's entry as the API returns it; `date` is `YYYY-MM-DD`. */
  datatype HealthLog = HealthLog(
    id: string,
    date: string,
    weekday: Option<string>,
    weight: Option<string>,
    morning: Option<string>,
    gym: Option<string>,
    afternoon: Option<string>,
    noEatAfter: Option<string>,
    calories: Option<real>,
    goutTreatment: Option<real>,
    status: Status,
    createdAt: string,
    updatedAt: string)
}
