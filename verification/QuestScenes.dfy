/** scene.go. The clocks that handlers read are parameters. */
module QuestScenes {
  import opened Store
  import opened Masterdata
  import opened QuestFlow

  method RecordSeasonRoute(user: UserState, season: int, route: int, now: int)
    modifies user`seasonRoutes
    ensures user.View() == RecordRoute(old(user.View()), season, route, now)
  {
    if season <= 0 || route <= 0 {
      return;
    }
    var key := (season, route);
    if key in user.seasonRoutes {
      return;
    }
    user.seasonRoutes := user.seasonRoutes[key := now];
  }

  method AdvanceMainFlowScene(c: Catalog, user: UserState, q: int, scene: int, clock: int)
    requires CanAdvance(c, user.View(), q, scene)
    modifies user
    ensures user.View() == Advance(c, old(user.View()), q, scene, clock)
  {
    if !Ahead(c, scene, user.main.head) {
      return;
    }
    user.main := user.main.(scene := scene);
    user.main := user.main.(head := scene);
    user.main := user.main.(reachedLast := scene == LastScene(c, q));
    if q in c.routeOfQuest {
      var route := c.routeOfQuest[q];
      user.main := user.main.(route := route);
      if route in c.seasonOfRoute {
        var season := c.seasonOfRoute[route];
        user.main := user.main.(season := season);
        RecordSeasonRoute(user, season, route, clock);
      }
    }
  }
}
