/** The statistics endpoints: a token-gated upload and an open read. */
module StatsRouter {
  import opened Wrappers
  import Settings
  import Misc
  import opened Upload
  import opened Health
  import opened StatsModels
  import opened StatsWeb

  method UploadData(s: Settings.Settings, app: BobStats, data: TwoPeriods, token: string, now: int)
    returns (r: UploadResponse)
    modifies app, app.health
    ensures r == Accepted <==> Misc.CheckAuthToken(s, token)
    ensures r != Accepted ==> r == WrongToken && unchanged(app, app.health)
    ensures r == Accepted ==>
      && app.Loaded() == Ok(data)
      && app.health.status == Success
      && app.health.dataTimestamp == Some(data.timestamp)
      && app.health.lastSuccessTimestamp == now
      && app.health.lastErrorTimestamp == old(app.health.lastErrorTimestamp)
  {
    if !Misc.CheckAuthToken(s, token) {
      return WrongToken;
    }
    app.Store(data, now);
    r := Accepted;
  }

  method Provide(app: BobStats, readTime: int) returns (r: TwoPeriods)
    ensures r.timestamp == readTime
    ensures app.Loaded().Ok? ==> r == app.Loaded().value.(timestamp := readTime)
    ensures app.Loaded().Err? ==> r == EmptyResponse(readTime)
  {
    r := app.Load(readTime);
  }
}
