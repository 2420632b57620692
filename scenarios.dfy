/**
 * Client-level walk-throughs of the login and public-token flows (a public
 * token obtained or unreadable, a login without a token, two overlapping
 * logins, no Internet permission), proved from the contracts of `Mobli` and
 * `AsyncMobliRunner` alone.
 */
module Scenarios {
  import opened Wrappers
  import opened Transport
  import TextUtil
  import MobliApi
  import AsyncRunner

  /** Client "abc"/"xyz" obtains a public token from a body holding "T1". */
  method PublicTokenScenario(tokenOf: string -> Option<string>, now: int)
    requires tokenOf("{\"access_token\":\"T1\"}") == Some("T1")
  {
    var created := MobliApi.Mobli.Create(Some("abc"), Some("xyz"));
    var m := created.value;
    var runner := new AsyncRunner.AsyncMobliRunner(m);
    var body := "{\"access_token\":\"T1\"}";
    runner.ObtainPublicToken(7, Some(1), tokenOf, now, (c: HttpCall) => Returned(body));
    assert m.accessToken == Some("T1");
    assert runner.requestLog == [AsyncRunner.RequestDelivery(7, AsyncRunner.OnComplete(body, Some(1)))];
  }

  /** A body without a readable token still reaches `onComplete`, and the token stays absent. */
  method UnreadablePublicTokenScenario(now: int)
  {
    var m := new MobliApi.Mobli("abc", "xyz");
    var runner := new AsyncRunner.AsyncMobliRunner(m);
    runner.ObtainPublicToken(7, None, (body: string) => None, now, (c: HttpCall) => Returned("oops"));
    assert m.accessToken == None;
    assert runner.requestLog == [AsyncRunner.RequestDelivery(7, AsyncRunner.OnComplete("oops", None))];
  }

  /** The permissions "shared" and "basic" give the one parameter `scope` = "shared basic". */
  lemma SharedBasicScope()
    ensures MobliApi.ScopeParams(["shared", "basic"]) == map["scope" := "shared basic"]
  {
    var permissions := ["shared", "basic"];
    assert TextUtil.Join(" ", permissions) == "shared" + " " + TextUtil.Join(" ", ["basic"]);
    assert TextUtil.Join(" ", ["basic"]) == "basic";
    assert TextUtil.Join(" ", permissions) == "shared basic";
    assert MobliApi.ScopeParams(permissions).Keys == {"scope"};
    assert MobliApi.ScopeParams(permissions)["scope"] == "shared basic";
  }

  /** Login with scope "shared basic" whose dialog returns no token. */
  method LoginWithoutTokenScenario(now: int)
  {
    var m := new MobliApi.Mobli("abc", "xyz");
    var permissions := ["shared", "basic"];
    SharedBasicScope();
    var shown := m.Authorize(permissions, 3, true, now);
    assert shown.value.params["scope"] == "shared basic";
    assert shown.value.redirectUri == MobliApi.RedirectUri("abc");
    m.OnAuthDialogComplete(map["user_id" := "u"], now);
    assert m.dialogLog == [MobliApi.DialogDelivery(3, MobliApi.OnMobliError(MobliApi.MobliError(MobliApi.LOGIN_FAILED)))];
    assert !m.IsSessionValid(now);
  }

  /** A second `authorize` before the first dialog ends takes over its result. */
  method SecondAuthorizeTakesOverScenario(now: int)
  {
    var m := new MobliApi.Mobli("abc", "xyz");
    var first := m.Authorize([], 1, true, now);
    assert "scope" !in first.value.params;
    var second := m.Authorize([], 2, true, now);
    assert m.pendingAuthDialogs == 2;
    m.OnAuthDialogComplete(map["access_token" := "T", "expires_in" := "0"], now);
    assert m.dialogLog == [MobliApi.DialogDelivery(2, MobliApi.OnComplete(map["access_token" := "T", "expires_in" := "0"]))];
    m.OnAuthDialogCancel();
    assert m.dialogLog[1] == MobliApi.DialogDelivery(2, MobliApi.OnCancel) && m.pendingAuthDialogs == 0;
  }

  /**
   * Without the Internet permission nothing is shown and no login dialog is
   * pending, so none of the login flow's handlers can be called.
   */
  method NoPermissionScenario(now: int)
  {
    var m := new MobliApi.Mobli("abc", "xyz");
    var shown := m.Authorize(["basic"], 1, false, now);
    assert shown == None && m.dialogLog == [] && m.pendingAuthDialogs == 0;
  }
}
