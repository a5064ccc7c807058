/** The route table of routes/users.js and Express's dispatch: the first route
    registered whose method and path pattern match handles the request.

    As written, `PUT /:id` is registered before `PUT /profile`, and the parameter
    matches the literal segment "profile", so the profile update is never reached:
    PUT /api/users/profile goes to the admin update with id "profile". The corrected
    table registers the profile routes first. */
module UsersRouting {
  import opened Wrappers
  import opened Text

  datatype Verb = Get | Put

  /** A path pattern segment: a literal, or a named parameter such as `:id`. */
  datatype Segment = Literal(text: string) | Param

  datatype Handler = ListUsers | AdminUpdate | GetProfile | UpdateProfile

  datatype Route = Route(verb: Verb, pattern: seq<Segment>, handler: Handler)

  /** A parameter matches any one non-empty segment; a literal matches its own text
      in any letter case, as routers are case-insensitive by default. */
  predicate SegmentMatches(s: Segment, part: string) {
    match s
    case Literal(t) => Lower(part) == Lower(t)
    case Param => part != ""
  }

  predicate Matches(r: Route, verb: Verb, path: seq<string>) {
    r.verb == verb && |r.pattern| == |path|
    && forall i :: 0 <= i < |path| ==> SegmentMatches(r.pattern[i], path[i])
  }

  /** Route i handles the request: it matches, and no earlier route does. */
  predicate FirstMatch(routes: seq<Route>, verb: Verb, path: seq<string>, i: int) {
    && 0 <= i < |routes| && Matches(routes[i], verb, path)
    && forall j :: 0 <= j < i ==> !Matches(routes[j], verb, path)
  }

  /** Express dispatch: try the routes from position i on, in registration order. */
  function DispatchFrom(routes: seq<Route>, verb: Verb, path: seq<string>, i: nat): Option<Handler>
    requires i <= |routes|
    decreases |routes| - i
  {
    if i == |routes| then None
    else if Matches(routes[i], verb, path) then Some(routes[i].handler)
    else DispatchFrom(routes, verb, path, i + 1)
  }

  /** The handler of a request: the first route registered that matches it. */
  function Dispatch(routes: seq<Route>, verb: Verb, path: seq<string>): Option<Handler> {
    DispatchFrom(routes, verb, path, 0)
  }

  /** Dispatch picks the first matching route, and finds none only when no route
      matches. */
  lemma {:induction false} DispatchFromFirst(routes: seq<Route>, verb: Verb, path: seq<string>, i: nat)
    requires i <= |routes| && forall j :: 0 <= j < i ==> !Matches(routes[j], verb, path)
    ensures DispatchFrom(routes, verb, path, i).Some? ==>
      exists k :: FirstMatch(routes, verb, path, k) && routes[k].handler == DispatchFrom(routes, verb, path, i).value
    ensures DispatchFrom(routes, verb, path, i).None? <==> forall j :: 0 <= j < |routes| ==> !Matches(routes[j], verb, path)
    decreases |routes| - i
  {
    if i < |routes| {
      if Matches(routes[i], verb, path) {
        assert FirstMatch(routes, verb, path, i);
      } else {
        DispatchFromFirst(routes, verb, path, i + 1);
      }
    }
  }

  lemma DispatchIsFirstMatch(routes: seq<Route>, verb: Verb, path: seq<string>)
    ensures Dispatch(routes, verb, path).Some? ==>
      exists k :: FirstMatch(routes, verb, path, k) && routes[k].handler == Dispatch(routes, verb, path).value
    ensures Dispatch(routes, verb, path).None? <==> forall j :: 0 <= j < |routes| ==> !Matches(routes[j], verb, path)
  {
    DispatchFromFirst(routes, verb, path, 0);
  }

  /** routes/users.js in registration order. */
  const AsWritten: seq<Route> := [
    Route(Get, [], ListUsers),
    Route(Put, [Param], AdminUpdate),
    Route(Get, [Literal("profile")], GetProfile),
    Route(Put, [Literal("profile")], UpdateProfile)
  ]

  /** The same routes with the literal profile paths ahead of `/:id`. */
  const Corrected: seq<Route> := [
    Route(Get, [], ListUsers),
    Route(Get, [Literal("profile")], GetProfile),
    Route(Put, [Literal("profile")], UpdateProfile),
    Route(Put, [Param], AdminUpdate)
  ]

  /** The literal "profile" is already lower case. */
  lemma ProfileLower()
    ensures Lower("profile") == "profile"
  {
    LowerOfLowerCase("profile");
  }

  /** As written, no request ever reaches the profile update, and PUT /profile is
      taken by the admin update. */
  lemma ProfileUpdateUnreachable(verb: Verb, path: seq<string>)
    ensures Dispatch(AsWritten, verb, path) != Some(UpdateProfile)
    ensures Dispatch(AsWritten, Put, ["profile"]) == Some(AdminUpdate)
  {
    ProfileLower();
    assert ["profile"][0] == "profile";
    assert Matches(AsWritten[1], Put, ["profile"]);
    assert DispatchFrom(AsWritten, Put, ["profile"], 1) == Some(AdminUpdate);
    if Matches(AsWritten[3], verb, path) {
      assert Matches(AsWritten[1], verb, path);
    }
    var d1 := DispatchFrom(AsWritten, verb, path, 1);
    var d2 := DispatchFrom(AsWritten, verb, path, 2);
    var d3 := DispatchFrom(AsWritten, verb, path, 3);
    assert DispatchFrom(AsWritten, verb, path, 4) == None;
  }

  /** With the corrected order, PUT /profile in any letter case reaches the profile
      update and every other single-segment PUT still reaches the admin update. */
  lemma CorrectedDispatch(id: string)
    ensures Lower(id) == "profile" ==> Dispatch(Corrected, Put, [id]) == Some(UpdateProfile)
    ensures id != "" && Lower(id) != "profile" ==> Dispatch(Corrected, Put, [id]) == Some(AdminUpdate)
  {
    ProfileLower();
    assert [id][0] == id;
    if Lower(id) == "profile" {
      assert Matches(Corrected[2], Put, [id]);
      assert DispatchFrom(Corrected, Put, [id], 2) == Some(UpdateProfile);
      assert !Matches(Corrected[1], Put, [id]);
    } else if id != "" {
      CorrectedAdmin(id);
    }
  }

  lemma CorrectedAdmin(id: string)
    requires id != "" && Lower(id) != "profile"
    ensures Dispatch(Corrected, Put, [id]) == Some(AdminUpdate)
  {
    ProfileLower();
    assert [id][0] == id;
    assert Matches(Corrected[2], Put, ["profile"]);
    assert DispatchFrom(Corrected, Put, ["profile"], 2) == Some(UpdateProfile);
    assert !Matches(Corrected[2], Put, [id]);
    assert Matches(Corrected[3], Put, [id]);
    assert DispatchFrom(Corrected, Put, [id], 3) == Some(AdminUpdate);
    assert DispatchFrom(Corrected, Put, [id], 2) == Some(AdminUpdate);
  }

  /** The reordering changes nothing but where PUT /profile, in any letter case,
      goes. */
  lemma CorrectedOnlyMovesProfile(verb: Verb, path: seq<string>)
    requires verb == Get || |path| != 1 || Lower(path[0]) != "profile"
    ensures Dispatch(Corrected, verb, path) == Dispatch(AsWritten, verb, path)
  {
    assert DispatchFrom(Corrected, verb, path, 4) == None && DispatchFrom(AsWritten, verb, path, 4) == None;
    var c3, a3 := DispatchFrom(Corrected, verb, path, 3), DispatchFrom(AsWritten, verb, path, 3);
    var c2, a2 := DispatchFrom(Corrected, verb, path, 2), DispatchFrom(AsWritten, verb, path, 2);
    var c1, a1 := DispatchFrom(Corrected, verb, path, 1), DispatchFrom(AsWritten, verb, path, 1);
    ProfileLower();
  }
}
