/** What the three views share about requests and routes. */
module Web {

  /** The route of the incident list. */
  const ListRoute: string := "/"

  /** `response.ok`: a 2xx status. */
  predicate IsOk(status: nat)
  {
    200 <= status <= 299
  }
}
