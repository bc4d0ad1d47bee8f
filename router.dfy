/**
 * The client-side router's lookup: a path names a view, and every path
 * without a route of its own gets the "page not found" view.
 */
module Router {

  /** The views the route table can render. */
  datatype View = HomeView | TimerView | NotFoundView

  /** The route table: the settings page, the timer and the "*" fallback. */
  const Routes: map<string, View> := map["/" := HomeView, "/timer" := TimerView, "*" := NotFoundView]

  /**
   * `getRoute`: the path's own route if it has one, otherwise the one stored
   * under "*". Every path gets a view.
   */
  function GetRoute(pathName: string): (r: View)
    ensures r == HomeView <==> pathName == "/"
    ensures r == TimerView <==> pathName == "/timer"
    ensures r == NotFoundView <==> pathName != "/" && pathName != "/timer"
  {
    if pathName in Routes then Routes[pathName] else Routes["*"]
  }
}
