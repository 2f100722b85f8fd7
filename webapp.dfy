/**
 * app/api/dify/webapp.py: the access-control engine for published web apps.
 * A grant is three keys in the key-value store (the mode, the comma-joined
 * account ids, the comma-joined group ids); the sites table maps app codes
 * to app ids. Handlers that write or delete keys are methods on the store;
 * the readers and the permission decisions are functions of the store's
 * contents.
 */
module WebApp {
  import opened Wrappers
  import opened Strings
  import opened Passport
  import opened KeyValue

  /** The `sites` table as `code -> app_id`. */
  type Sites = map<string, string>

  const Public := "public"
  const PrivateAll := "private_all"
  const SsoVerified := "sso_verified"
  const Visitor := "visitor"

  // ---------------------------------------------------------------- keys

  const ModePrefix := "webapp_access_mode:"

  function ModeKey(appId: string): string
  {
    ModePrefix + appId
  }

  function AccountsKey(appId: string): string
  {
    ModePrefix + "accounts:" + appId
  }

  function GroupsKey(appId: string): string
  {
    ModePrefix + "groups:" + appId
  }

  /** The three keys of one app's grant are always three different keys. */
  lemma GrantKeysDistinct(appId: string)
    ensures ModeKey(appId) != AccountsKey(appId)
    ensures ModeKey(appId) != GroupsKey(appId)
    ensures AccountsKey(appId) != GroupsKey(appId)
  {
    assert |ModeKey(appId)| < |AccountsKey(appId)| && |ModeKey(appId)| < |GroupsKey(appId)|;
    assert AccountsKey(appId)[|ModePrefix|] != GroupsKey(appId)[|ModePrefix|];
  }

  /** Keys of different apps whose ids contain no ':' never collide. */
  lemma GrantKeysOfOtherApps(a: string, b: string)
    requires a != b && ':' !in a && ':' !in b
    ensures ModeKey(b) !in {ModeKey(a), AccountsKey(a), GroupsKey(a)}
    ensures AccountsKey(b) !in {ModeKey(a), AccountsKey(a), GroupsKey(a)}
    ensures GroupsKey(b) !in {ModeKey(a), AccountsKey(a), GroupsKey(a)}
  {
    var tails := [a, "accounts:" + a, "groups:" + a];
    var others := [b, "accounts:" + b, "groups:" + b];
    assert ':' in tails[1] && ':' in tails[2] by {
      assert tails[1][8] == ':' && tails[2][6] == ':';
    }
    assert ':' in others[1] && ':' in others[2] by {
      assert others[1][8] == ':' && others[2][6] == ':';
    }
    assert tails[1][0] != others[2][0] && tails[2][0] != others[1][0];
    PrefixInjective("accounts:", a, b);
    PrefixInjective("groups:", a, b);
    assert forall i, j :: 0 <= i < 3 && 0 <= j < 3 ==> tails[i] != others[j];
    forall i, j | 0 <= i < 3 && 0 <= j < 3 {
      PrefixInjective(ModePrefix, tails[i], others[j]);
    }
    assert ModeKey(a) == ModePrefix + tails[0] && ModeKey(b) == ModePrefix + others[0];
    assert AccountsKey(a) == ModePrefix + tails[1] && AccountsKey(b) == ModePrefix + others[1];
    assert GroupsKey(a) == ModePrefix + tails[2] && GroupsKey(b) == ModePrefix + others[2];
  }

  /** A common prefix can be cancelled. */
  lemma PrefixInjective(p: string, x: string, y: string)
    ensures p + x == p + y <==> x == y
  {
    if p + x == p + y {
      assert x == (p + x)[|p|..];
      assert y == (p + y)[|p|..];
    }
  }

  // ---------------------------------------------------------------- writing a grant

  /** One entry of the `subjects` list; a missing field reads as "". */
  datatype Subject = Subject(subjectId: string, subjectType: string)

  /** The ids of the subjects of the given type, in input order. */
  function IdsOfType(subjects: seq<Subject>, subjectType: string): (ids: seq<string>)
    ensures |ids| <= |subjects|
    decreases |subjects|
  {
    if |subjects| == 0 then []
    else
      var last := subjects[|subjects| - 1];
      IdsOfType(subjects[..|subjects| - 1], subjectType) + (if last.subjectType == subjectType then [last.subjectId] else [])
  }

  /** An id is listed exactly when some subject of that type carries it. */
  lemma {:induction false} IdsOfTypeMembers(subjects: seq<Subject>, subjectType: string, id: string)
    ensures id in IdsOfType(subjects, subjectType)
            <==> exists i :: 0 <= i < |subjects| && subjects[i] == Subject(id, subjectType)
    decreases |subjects|
  {
    if |subjects| > 0 {
      var init := subjects[..|subjects| - 1];
      IdsOfTypeMembers(init, subjectType, id);
      assert forall i :: 0 <= i < |init| ==> init[i] == subjects[i];
      if exists i :: 0 <= i < |subjects| && subjects[i] == Subject(id, subjectType) {
        var i :| 0 <= i < |subjects| && subjects[i] == Subject(id, subjectType);
        if i < |init| {
          assert init[i] == Subject(id, subjectType);
        }
      }
    }
  }

  /** Subjects of any type other than account or group are in neither list. */
  lemma OtherTypesDropped(subjects: seq<Subject>, s: Subject)
    requires s in subjects && s.subjectType != "account" && s.subjectType != "group"
    requires forall t :: t in subjects && t.subjectId == s.subjectId ==> t.subjectType == s.subjectType
    ensures s.subjectId !in IdsOfType(subjects, "account") && s.subjectId !in IdsOfType(subjects, "group")
  {
    IdsOfTypeMembers(subjects, "account", s.subjectId);
    IdsOfTypeMembers(subjects, "group", s.subjectId);
  }

  /** The store after a grant is written: all three keys rewritten, plain SETs. */
  function WriteGrant(data: map<string, Entry>, appId: string, accessMode: string, subjects: seq<Subject>): (r: map<string, Entry>)
    ensures r.Keys == data.Keys + {ModeKey(appId), AccountsKey(appId), GroupsKey(appId)}
    ensures forall k :: k in data && k != ModeKey(appId) && k != AccountsKey(appId) && k != GroupsKey(appId) ==> r[k] == data[k]
    ensures r[GroupsKey(appId)] == Entry(Join(IdsOfType(subjects, "group"), ','), None)
  {
    data[ModeKey(appId) := Entry(accessMode, None)]
        [AccountsKey(appId) := Entry(Join(IdsOfType(subjects, "account"), ','), None)]
        [GroupsKey(appId) := Entry(Join(IdsOfType(subjects, "group"), ','), None)]
  }

  datatype SetModeResponse = SetModeResponse(accessMode: string, result: bool)

  /**
   * `set_app_access_mode`: an empty app id writes nothing and answers public/false;
   * otherwise the subjects are split into the account and group lists and the
   * grant is written.
   */
  method SetAppAccessMode(store: KvStore, appId: string, accessMode: string, subjects: seq<Subject>)
    returns (resp: SetModeResponse)
    modifies store
    ensures appId == "" ==> resp == SetModeResponse(Public, false) && store.data == old(store.data)
    ensures appId != "" ==> resp == SetModeResponse(accessMode, true)
                            && store.data == WriteGrant(old(store.data), appId, accessMode, subjects)
  {
    if appId == "" {
      return SetModeResponse(Public, false);
    }
    var accounts: seq<string> := [];
    var groups: seq<string> := [];
    for i := 0 to |subjects|
      invariant accounts == IdsOfType(subjects[..i], "account")
      invariant groups == IdsOfType(subjects[..i], "group")
    {
      assert subjects[..i + 1][..i] == subjects[..i];
      var subject := subjects[i];
      if subject.subjectType == "account" {
        accounts := accounts + [subject.subjectId];
      } else if subject.subjectType == "group" {
        groups := groups + [subject.subjectId];
      }
    }
    assert subjects[..|subjects|] == subjects;
    store.Set(ModeKey(appId), accessMode);
    store.Set(AccountsKey(appId), Join(accounts, ','));
    store.Set(GroupsKey(appId), Join(groups, ','));
    return SetModeResponse(accessMode, true);
  }

  // ---------------------------------------------------------------- reading a mode

  /** The stored mode when it is truthy, otherwise public. */
  function ModeOrPublic(data: map<string, Entry>, appId: string): (mode: string)
    ensures Truthy(Get(data, ModeKey(appId))) ==> mode == data[ModeKey(appId)].value
    ensures !Truthy(Get(data, ModeKey(appId))) ==> mode == Public
    ensures mode != ""
  {
    var v := Get(data, ModeKey(appId));
    if Truthy(v) then v.value else Public
  }

  /** The app id a request names: a code found in the sites table overrides `appId`. */
  function ResolveAppId(sites: Sites, appId: string, appCode: string): (id: string)
    ensures appCode != "" && appCode in sites ==> id == sites[appCode]
    ensures appCode == "" || appCode !in sites ==> id == appId
  {
    if appCode != "" && appCode in sites then sites[appCode] else appId
  }

  /** `get_app_access_mode`. */
  function GetAppAccessMode(data: map<string, Entry>, sites: Sites, appId: string, appCode: string): (mode: string)
    ensures ResolveAppId(sites, appId, appCode) == "" ==> mode == Public
    ensures ResolveAppId(sites, appId, appCode) != "" ==> mode == ModeOrPublic(data, ResolveAppId(sites, appId, appCode))
  {
    var id := ResolveAppId(sites, appId, appCode);
    if id == "" then Public else ModeOrPublic(data, id)
  }

  /** `get_webapp_access_mode_code`: `app_code` first, then `appCode`; unknown codes are public. */
  function GetWebappAccessModeCode(data: map<string, Entry>, sites: Sites, appCodeSnake: string, appCodeCamel: string)
    : (mode: string)
    ensures var code := if appCodeSnake == "" then appCodeCamel else appCodeSnake;
            (code == "" || code !in sites ==> mode == Public)
            && (code != "" && code in sites ==> mode == ModeOrPublic(data, sites[code]))
  {
    var code := if appCodeSnake == "" then appCodeCamel else appCodeSnake;
    if code == "" then Public
    else if code in sites then ModeOrPublic(data, sites[code])
    else Public
  }

  /** `get_webapp_access_mode_code_batch`: one entry per requested id. */
  method GetWebappAccessModeBatch(store: KvStore, appIds: seq<string>) returns (accessModes: map<string, string>)
    ensures accessModes.Keys == set id | id in appIds
    ensures forall id :: id in appIds ==> accessModes[id] == ModeOrPublic(store.data, id)
  {
    accessModes := map[];
    for i := 0 to |appIds|
      invariant accessModes.Keys == set id | id in appIds[..i]
      invariant forall id :: id in appIds[..i] ==> accessModes[id] == ModeOrPublic(store.data, id)
    {
      assert appIds[..i + 1] == appIds[..i] + [appIds[i]];
      accessModes := accessModes[appIds[i] := ModeOrPublic(store.data, appIds[i])];
    }
    assert appIds[..|appIds|] == appIds;
  }

  // ---------------------------------------------------------------- deciding access

  /** The mode the permission checks use: any stored value, even "", else public. */
  function StoredMode(data: map<string, Entry>, appId: string): (mode: string)
    ensures ModeKey(appId) in data ==> mode == data[ModeKey(appId)].value
    ensures ModeKey(appId) !in data ==> mode == Public
  {
    match Get(data, ModeKey(appId))
    case Some(v) => v
    case None => Public
  }

  /** The allow-list test: a truthy account list, split on ",", contains the user. */
  function AllowListed(data: map<string, Entry>, appId: string, user: Claim): (listed: bool)
    ensures listed <==> Truthy(Get(data, AccountsKey(appId))) && user.Str?
                        && user.s in Split(data[AccountsKey(appId)].value, ',')
  {
    var v := Get(data, AccountsKey(appId));
    Truthy(v) && user.Str? && user.s in Split(v.value, ',')
  }

  predicate IsPrivateMode(mode: string)
  {
    mode == PrivateAll || mode == SsoVerified
  }

  /** The decision table of `get_app_permission`. */
  function AppDecision(mode: string, user: Claim, listed: bool): (allow: bool)
    ensures mode == Public ==> allow
    ensures mode != Public && IsPrivateMode(mode) && user != Str(Visitor) ==> allow
    ensures mode != Public && !(IsPrivateMode(mode) && user != Str(Visitor)) ==> (allow <==> listed)
  {
    if mode == Public then true
    else if IsPrivateMode(mode) && user != Str(Visitor) then true
    else listed
  }

  /** The decision table of the trusted-userId checks: no visitor test. */
  function TrustedDecision(mode: string, listed: bool): (allow: bool)
    ensures mode == Public || IsPrivateMode(mode) ==> allow
    ensures mode != Public && !IsPrivateMode(mode) ==> (allow <==> listed)
  {
    mode == Public || IsPrivateMode(mode) || listed
  }

  /**
   * The token of an `Authorization` header: present, containing a space, split once
   * on white space into a scheme equal to "bearer" up to case and a token.
   */
  function ParseBearer(header: Option<string>): (token: Option<string>)
    ensures header.None? ==> token.None?
    ensures header.Some? && ' ' !in header.value ==> token.None?
    ensures token.Some? ==> |SplitOnceOnSpace(header.value)| == 2
                            && Lower(SplitOnceOnSpace(header.value)[0]) == "bearer"
                            && token.value == SplitOnceOnSpace(header.value)[1]
  {
    match header
    case None => None
    case Some(h) =>
      if ' ' !in h then None
      else
        var parts := SplitOnceOnSpace(h);
        if |parts| != 2 then None
        else if Lower(parts[0]) != "bearer" then None
        else Some(parts[1])
  }

  lemma {:induction false} FirstWordOfWord(w: string, rest: string)
    requires forall i :: 0 <= i < |w| ==> !IsSpace(w[i])
    requires |rest| > 0 && IsSpace(rest[0])
    ensures FirstWord(w + rest) == w
    decreases |w|
  {
    if |w| > 0 {
      assert (w + rest)[1..] == w[1..] + rest;
      FirstWordOfWord(w[1..], rest);
    } else {
      assert w + rest == rest;
    }
  }

  /**
   * A header `<scheme> <token>` with scheme "bearer" in any case and a token not
   * starting with white space yields exactly that token.
   */
  lemma ParseBearerWellFormed(scheme: string, token: string)
    requires Lower(scheme) == "bearer"
    requires forall i :: 0 <= i < |scheme| ==> !IsSpace(scheme[i])
    requires token != "" && !IsSpace(token[0])
    ensures ParseBearer(Some(scheme + " " + token)) == Some(token)
  {
    var h := scheme + " " + token;
    assert h[|scheme|] == ' ';
    assert |scheme| == 6;
    assert !IsSpace(h[0]);
    assert TrimStart(h) == h;
    FirstWordOfWord(scheme, " " + token);
    assert h == scheme + (" " + token);
    assert h[..|scheme|] == scheme;
    assert h[|scheme|..] == " " + token;
    assert (" " + token)[1..] == token;
    assert TrimStart(" " + token) == TrimStart(token) == token;
  }

  /**
   * The subject of a request: `end_user_id` of the verified payload, else its
   * `user_id`, else "visitor"; any failure on the way leaves "visitor".
   * `verify` is `PassportService.verify`, `None` when it raises.
   */
  function ResolveUser(header: Option<string>, verify: string -> Option<Payload>): (user: Claim)
    ensures ParseBearer(header).None? ==> user == Str(Visitor)
    ensures ParseBearer(header).Some? && verify(ParseBearer(header).value).None? ==> user == Str(Visitor)
    ensures ParseBearer(header).Some? && verify(ParseBearer(header).value).Some? ==>
              var p := verify(ParseBearer(header).value).value;
              user == (if "end_user_id" in p then p["end_user_id"] else if "user_id" in p then p["user_id"] else Str(Visitor))
  {
    match ParseBearer(header)
    case None => Str(Visitor)
    case Some(tk) =>
      match verify(tk)
      case None => Str(Visitor)
      case Some(p) =>
        if "end_user_id" in p then p["end_user_id"]
        else if "user_id" in p then p["user_id"]
        else Str(Visitor)
  }

  /**
   * `get_app_permission`: an unknown code is refused; an app whose mode was never set
   * is open to everyone, the token's subject included.
   */
  function GetAppPermission(data: map<string, Entry>, sites: Sites, appId: string, appCode: string,
                            header: Option<string>, verify: string -> Option<Payload>): (allow: bool)
    ensures appCode != "" && appCode !in sites ==> !allow
    ensures !(appCode != "" && appCode !in sites) && ModeKey(ResolveAppId(sites, appId, appCode)) !in data ==> allow
  {
    if appCode != "" && appCode !in sites then false
    else
      var id := ResolveAppId(sites, appId, appCode);
      var user := ResolveUser(header, verify);
      AppDecision(StoredMode(data, id), user, AllowListed(data, id, user))
  }

  /** `get_webapp_permission`: the caller vouches for `userId`. */
  function GetWebappPermission(data: map<string, Entry>, sites: Sites, appCode: string, userId: string, appId: string)
    : (allow: bool)
    ensures appCode != "" && appCode !in sites ==> !allow
    ensures !(appCode != "" && appCode !in sites) && ModeKey(ResolveAppId(sites, appId, appCode)) !in data ==> allow
  {
    if appCode != "" && appCode !in sites then false
    else
      var id := ResolveAppId(sites, appId, appCode);
      TrustedDecision(StoredMode(data, id), AllowListed(data, id, Str(userId)))
  }

  /** One entry of the batch: false for an unknown code, else the trusted decision. */
  function BatchEntry(data: map<string, Entry>, sites: Sites, appCode: string, userId: string): bool
  {
    appCode in sites
    && TrustedDecision(StoredMode(data, sites[appCode]), AllowListed(data, sites[appCode], Str(userId)))
  }

  /** `get_webapp_permission_batch`: one entry per code; unknown codes stay false. */
  method GetWebappPermissionBatch(store: KvStore, sites: Sites, appCodes: seq<string>, userId: string)
    returns (permissions: map<string, bool>)
    ensures permissions.Keys == set c | c in appCodes
    ensures forall c :: c in appCodes ==> permissions[c] == BatchEntry(store.data, sites, c, userId)
    ensures forall c :: c in appCodes && c !in sites ==> !permissions[c]
  {
    permissions := map[];
    for i := 0 to |appCodes|
      invariant permissions.Keys == set c | c in appCodes[..i]
      invariant forall c :: c in appCodes[..i] ==> permissions[c] == BatchEntry(store.data, sites, c, userId)
    {
      assert appCodes[..i + 1] == appCodes[..i] + [appCodes[i]];
      var appCode := appCodes[i];
      permissions := permissions[appCode := false];
      if appCode !in sites {
        continue;
      }
      var id := sites[appCode];
      var accessMode := StoredMode(store.data, id);
      if accessMode == Public || IsPrivateMode(accessMode) {
        permissions := permissions[appCode := true];
        continue;
      }
      permissions := permissions[appCode := AllowListed(store.data, id, Str(userId))];
    }
    assert appCodes[..|appCodes|] == appCodes;
  }

  /** For a non-empty code the batch answers what the single check answers. */
  lemma BatchAgreesWithSingle(data: map<string, Entry>, sites: Sites, appCode: string, userId: string, appId: string)
    requires appCode != ""
    ensures BatchEntry(data, sites, appCode, userId) == GetWebappPermission(data, sites, appCode, userId, appId)
  {
  }

  // ---------------------------------------------------------------- clearing

  /** `clean_webapp_access_mode`: an empty id deletes nothing and answers false. */
  method CleanWebappAccessMode(store: KvStore, appId: string) returns (result: bool)
    modifies store
    ensures result <==> appId != ""
    ensures appId == "" ==> store.data == old(store.data)
    ensures appId != "" ==> store.data == old(store.data) - {ModeKey(appId), GroupsKey(appId), AccountsKey(appId)}
  {
    if appId == "" {
      return false;
    }
    store.Delete(ModeKey(appId));
    store.Delete(GroupsKey(appId));
    store.Delete(AccountsKey(appId));
    return true;
  }

  // ---------------------------------------------------------------- properties of the engine

  /** After a grant is written, the getter reads back its mode (or public for an empty mode). */
  lemma SetThenGetMode(data: map<string, Entry>, sites: Sites, appId: string, accessMode: string, subjects: seq<Subject>)
    requires appId != ""
    ensures var d := WriteGrant(data, appId, accessMode, subjects);
            GetAppAccessMode(d, sites, appId, "") == (if accessMode == "" then Public else accessMode)
            && StoredMode(d, appId) == accessMode
  {
    GrantKeysDistinct(appId);
  }

  /** Writing one app's grant changes no other app's mode or allow-list. */
  lemma WriteGrantFrame(data: map<string, Entry>, appId: string, accessMode: string, subjects: seq<Subject>,
                        other: string, user: Claim)
    requires appId != other && ':' !in appId && ':' !in other
    ensures var d := WriteGrant(data, appId, accessMode, subjects);
            StoredMode(d, other) == StoredMode(data, other) && ModeOrPublic(d, other) == ModeOrPublic(data, other)
            && AllowListed(d, other, user) == AllowListed(data, other, user)
  {
    GrantKeysOfOtherApps(appId, other);
  }

  /** Account ids a grant can name so that the comma-joined list splits back into them. */
  predicate WellFormedIds(ids: seq<string>)
  {
    forall i :: 0 <= i < |ids| ==> ids[i] != "" && ',' !in ids[i]
  }

  lemma JoinOfNonEmpty(ids: seq<string>)
    requires |ids| >= 1 && ids[0] != ""
    ensures Join(ids, ',') != ""
  {
    if |ids| > 1 {
      assert Join(ids, ',') == ids[0] + [','] + Join(ids[1..], ',');
    }
  }

  /**
   * Under a restricted mode (neither public nor private), the freshly written grant
   * allows exactly the listed account ids, for the trusted check and for the
   * token-based check alike.
   */
  lemma RestrictedAllowsExactlyListed(data: map<string, Entry>, appId: string, accessMode: string,
                                      subjects: seq<Subject>, userId: string,
                                      header: Option<string>, verify: string -> Option<Payload>)
    requires appId != ""
    requires accessMode != Public && !IsPrivateMode(accessMode)
    requires WellFormedIds(IdsOfType(subjects, "account"))
    ensures var d := WriteGrant(data, appId, accessMode, subjects);
            (GetWebappPermission(d, map[], "", userId, appId) <==> userId in IdsOfType(subjects, "account"))
            && (AllowListed(d, appId, Str(userId)) <==> userId in IdsOfType(subjects, "account"))
    ensures var d := WriteGrant(data, appId, accessMode, subjects);
            var user := ResolveUser(header, verify);
            GetAppPermission(d, map[], appId, "", header, verify)
            <==> user.Str? && user.s in IdsOfType(subjects, "account")
  {
    var ids := IdsOfType(subjects, "account");
    var d := WriteGrant(data, appId, accessMode, subjects);
    GrantKeysDistinct(appId);
    assert d[AccountsKey(appId)].value == Join(ids, ',');
    assert StoredMode(d, appId) == accessMode;
    if |ids| >= 1 {
      SplitJoin(ids, ',');
      JoinOfNonEmpty(ids);
    } else {
      assert Join(ids, ',') == "";
    }
  }

  /** For the token-based check the same grant decides by the allow-list even for a visitor. */
  lemma VisitorUnderPrivateFallsThrough(data: map<string, Entry>, sites: Sites, appId: string, header: Option<string>,
                                        verify: string -> Option<Payload>)
    requires StoredMode(data, appId) == PrivateAll
    requires ResolveUser(header, verify) == Str(Visitor)
    ensures GetAppPermission(data, sites, appId, "", header, verify) == AllowListed(data, appId, Str(Visitor))
  {
  }

  /** A request without a usable bearer header is the visitor. */
  /**
   * `PassportService` defines `issue` only: as written the `verify` call raises
   * `AttributeError`, which the handler catches, so every caller is "visitor".
   * That is the instance of `verify` that never returns a payload.
   */
  lemma UndefinedVerifyIsVisitor(header: Option<string>)
    ensures ResolveUser(header, _ => None) == Str(Visitor)
  {
  }

  lemma NoBearerIsVisitor(header: Option<string>, verify: string -> Option<Payload>)
    requires header.None? || ' ' !in header.value
             || |SplitOnceOnSpace(header.value)| != 2 || Lower(SplitOnceOnSpace(header.value)[0]) != "bearer"
    ensures ResolveUser(header, verify) == Str(Visitor)
  {
  }

  /**
   * A stored empty mode reads back as public from the getter, yet the permission
   * checks treat it as restricted and decide by the allow-list.
   */
  lemma EmptyModeDiverges(data: map<string, Entry>, appId: string, userId: string,
                          header: Option<string>, verify: string -> Option<Payload>)
    requires appId != ""
    requires ModeKey(appId) in data && data[ModeKey(appId)].value == ""
    ensures GetAppAccessMode(data, map[], appId, "") == Public
    ensures GetWebappPermission(data, map[], "", userId, appId) == AllowListed(data, appId, Str(userId))
    ensures GetAppPermission(data, map[], appId, "", header, verify)
            == AllowListed(data, appId, ResolveUser(header, verify))
  {
  }

  /** After a clean the app reads as public everywhere and its allow-list admits nobody. */
  lemma CleanResetsGrant(data: map<string, Entry>, appId: string, user: Claim)
    ensures var d := data - {ModeKey(appId), GroupsKey(appId), AccountsKey(appId)};
            ModeOrPublic(d, appId) == Public && StoredMode(d, appId) == Public && !AllowListed(d, appId, user)
            && GetWebappPermission(d, map[], "", "", appId)
  {
  }

  // ---------------------------------------------------------------- search pagination

  datatype SearchError =
    | InvalidParameterFormat   // 400: "pageNumber and resultsPerPage must be valid integers"

  datatype Page<T> = Page(currPage: int, totalPages: int, subjects: seq<T>, hasMore: bool)

  const MaxPageSize := 100

  /** `math.ceil(a / b)` for a non-negative `a` and a positive `b`. */
  function CeilDiv(a: nat, b: int): (q: nat)
    requires b > 0
    ensures a == 0 <==> q == 0
  {
    if a == 0 then 0 else (a - 1) / b + 1
  }

  /** The ceiling is the least multiple count that covers `a`. */
  lemma CeilDivBounds(a: nat, b: int)
    requires b > 0
    ensures CeilDiv(a, b) * b >= a
    ensures CeilDiv(a, b) == 0 || (CeilDiv(a, b) - 1) * b < a
  {
    if a > 0 {
      var d := (a - 1) / b;
      var m := (a - 1) % b;
      assert a - 1 == d * b + m && 0 <= m < b;
      assert CeilDiv(a, b) * b == d * b + b by {
        assert CeilDiv(a, b) == d + 1;
      }
    }
  }

  /** `k / b` is the page index of row `k`: its page starts at or before `k` and ends after it. */
  lemma DivBounds(k: nat, b: int)
    requires b > 0
    ensures (k / b) * b <= k < (k / b) * b + b
    ensures k % b == k - (k / b) * b
  {
  }

  /** A row before `a` lies on one of the first `CeilDiv(a, b)` pages. */
  lemma RowPageWithinTotal(k: nat, a: nat, b: int)
    requires b > 0 && k < a
    ensures k / b + 1 <= CeilDiv(a, b)
  {
    var q := k / b;
    DivBounds(k, b);
    CeilDivBounds(a, b);
  }

  /** The query argument as `int(...)`, with the route's default when it is absent (`request.args.get`). */
  function IntArg(arg: Option<string>, default: int): Option<int>
  {
    match arg
    case None => Some(default)
    case Some(text) => ParseInt(text)
  }

  /** Where page `page` (1-based) starts at `size` rows a page. */
  function PageOffset(page: int, size: int): (offset: nat)
    requires page >= 1 && size >= 1
    ensures offset == (page - 1) * size
  {
    assert (page - 1) * size >= 0;
    (page - 1) * size
  }

  /** The rows of page `page`: the window of `size` ordered matches from its offset. */
  function PageSlice<T>(matches: seq<T>, page: int, size: int): (rows: seq<T>)
    requires page >= 1 && size >= 1
    ensures |rows| <= size
    ensures PageOffset(page, size) < |matches| ==>
              rows == matches[PageOffset(page, size) .. Min(PageOffset(page, size) + size, |matches|)]
    ensures PageOffset(page, size) >= |matches| ==> rows == []
  {
    var offset := PageOffset(page, size);
    if offset >= |matches| then [] else matches[offset .. Min(offset + size, |matches|)]
  }

  function Min(a: int, b: int): int
  {
    if a < b then a else b
  }

  /**
   * `search_app_subjects` over the ordered active accounts matching the keyword:
   * the page number is clamped to at least 1 and the page size to 1..100; a
   * malformed number is the 400 answer.
   */
  function SearchAppSubjects<T>(matches: seq<T>, pageNumber: Option<string>, resultsPerPage: Option<string>)
    : (r: Result<Page<T>, SearchError>)
    ensures r.Err? <==> IntArg(pageNumber, 1).None? || IntArg(resultsPerPage, 10).None?
    ensures r.Ok? ==> r.value.currPage >= 1
    ensures r.Ok? ==> r.value.currPage == if IntArg(pageNumber, 1).value > 1 then IntArg(pageNumber, 1).value else 1
    ensures r.Ok? ==> var size := Clamp(IntArg(resultsPerPage, 10).value);
                      1 <= size <= MaxPageSize
                      && r.value.totalPages == CeilDiv(|matches|, size)
                      && (r.value.hasMore <==> r.value.currPage < r.value.totalPages)
                      && r.value.subjects == PageSlice(matches, r.value.currPage, size)
    ensures r.Ok? && |matches| == 0 ==> r.value.totalPages == 0 && r.value.subjects == [] && !r.value.hasMore
  {
    var p := IntArg(pageNumber, 1);
    var s := IntArg(resultsPerPage, 10);
    if p.None? || s.None? then Err(InvalidParameterFormat)
    else
      var page := if p.value > 1 then p.value else 1;
      var size := Clamp(s.value);
      var total := |matches|;
      if total == 0 then Ok(Page(page, 0, [], false))
      else
        var totalPages := CeilDiv(total, size);
        Ok(Page(page, totalPages, PageSlice(matches, page, size), page < totalPages))
  }

  /** `min(100, max(1, n))`. */
  function Clamp(n: int): (size: int)
    ensures 1 <= size <= MaxPageSize
    ensures 1 <= n <= MaxPageSize ==> size == n
  {
    if n < 1 then 1 else if n > MaxPageSize then MaxPageSize else n
  }

  /**
   * Paging loses nothing: the k-th match is on page `k / size + 1`, at position
   * `k % size`, and that page is within `totalPages`.
   */
  lemma EveryMatchOnItsPage<T>(matches: seq<T>, size: int, k: nat)
    requires 1 <= size && k < |matches|
    ensures k / size + 1 <= CeilDiv(|matches|, size)
    ensures k % size < |PageSlice(matches, k / size + 1, size)|
    ensures PageSlice(matches, k / size + 1, size)[k % size] == matches[k]
  {
    RowPageWithinTotal(k, |matches|, size);
    DivBounds(k, size);
    var page := k / size + 1;
    assert PageOffset(page, size) == (k / size) * size;
  }

  /** Pages past the last one are empty. */
  lemma PagesPastTheEndEmpty<T>(matches: seq<T>, page: int, size: int)
    requires 1 <= size && page > CeilDiv(|matches|, size) && page >= 1
    ensures PageSlice(matches, page, size) == []
  {
    var q := CeilDiv(|matches|, size);
    CeilDivBounds(|matches|, size);
    MulMonotone(page - 1, q, size);
  }

  lemma MulMonotone(a: int, b: int, c: int)
    requires a >= b && c >= 0
    ensures a * c >= b * c
  {
    var d := a - b;
    assert d * c >= 0;
    assert a * c == b * c + d * c;
  }
}
