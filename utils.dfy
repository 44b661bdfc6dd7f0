/**
  `CreateResponse.create_user_response`: the dictionary the login view
  answers with. It starts from four user keys and is then updated in place
  from the optional token arguments.
*/
module Utils {
  import opened Wrappers
  import opened JsonValues
  import opened Models

  /** The `token_data` argument: absent, a refresh-token object (its string form and the
      string form of its access token), a dictionary, or any other value with its truthiness. */
  datatype TokenData =
    | NoTokenData
    | RefreshTokenData(refresh: string, access: string)
    | DictData(entries: map<string, Json>)
    | OtherData(truthy: bool)

  /** Python truthiness of `token_data`: a dictionary is true when it is not empty. */
  predicate TokenDataTruthy(t: TokenData)
  {
    match t
    case NoTokenData => false
    case RefreshTokenData(_, _) => true
    case DictData(entries) => |entries| > 0
    case OtherData(truthy) => truthy
  }

  /** The four keys every response carries. */
  const UserKeys: set<string> := {"id", "username", "first_name", "second_name"}

  /** The four user keys the response starts from; `second_name` carries the last name. */
  function UserPart(user: User): (r: map<string, Json>)
    ensures r.Keys == UserKeys
  {
    map[
      "id" := Num(user.id),
      "username" := Str(user.username),
      "first_name" := Str(user.firstName),
      "second_name" := Str(user.lastName)]
  }

  /** `access_token` is given and truthy. */
  predicate HasAccessToken(accessToken: Option<string>)
  {
    accessToken.Some? && accessToken.value != ""
  }

  /** The response dictionary of `create_user_response`. */
  function ResponseData(user: User, tokenData: TokenData, accessToken: Option<string>): map<string, Json>
  {
    var withTokens :=
      if !TokenDataTruthy(tokenData) then UserPart(user)
      else match tokenData
        case RefreshTokenData(refresh, access) => UserPart(user)["access" := Str(access)]["refresh" := Str(refresh)]
        case DictData(entries) => UserPart(user) + entries
        case _ => UserPart(user);
    if HasAccessToken(accessToken) then withTokens["access" := Str(accessToken.value)] else withTokens
  }

  /** `create_user_response(user, token_data, access_token)`; `accessToken` is the string form
      of the `access_token` argument, `None` when it is not given. */
  method CreateUserResponse(user: User, tokenData: TokenData, accessToken: Option<string>)
    returns (data: map<string, Json>)
    ensures data == ResponseData(user, tokenData, accessToken)
  {
    data := map[
      "id" := Num(user.id),
      "username" := Str(user.username),
      "first_name" := Str(user.firstName),
      "second_name" := Str(user.lastName)];
    if TokenDataTruthy(tokenData) {
      match tokenData {
        case RefreshTokenData(refresh, access) =>
          data := data["access" := Str(access)];
          data := data["refresh" := Str(refresh)];
        case DictData(entries) =>
          data := data + entries;
        case OtherData(_) =>
        case NoTokenData =>
      }
    }
    if accessToken.Some? && accessToken.value != "" {
      data := data["access" := Str(accessToken.value)];
    }
  }

  /** The user keys are always present; unless a dictionary overrides them they carry the
      user's id, username, first name and last name (under `second_name`), and `last_name`
      appears only when a dictionary brings it. */
  lemma ResponseCarriesUser(user: User, tokenData: TokenData, accessToken: Option<string>)
    ensures var data := ResponseData(user, tokenData, accessToken);
      && UserKeys <= data.Keys
      && (!(tokenData.DictData? && TokenDataTruthy(tokenData)) ==>
            && data["id"] == Num(user.id) && data["username"] == Str(user.username)
            && data["first_name"] == Str(user.firstName) && data["second_name"] == Str(user.lastName))
      && (!tokenData.DictData? ==> "last_name" !in data)
  {
  }

  /** A non-empty dictionary is merged over the user keys; only a truthy `access_token`
      overrides one of its entries. */
  lemma ResponseMergesDict(user: User, entries: map<string, Json>, accessToken: Option<string>)
    requires |entries| > 0
    ensures var data := ResponseData(user, DictData(entries), accessToken);
      forall k :: k in entries && !(k == "access" && HasAccessToken(accessToken)) ==>
        k in data && data[k] == entries[k]
  {
  }

  /** A refresh token contributes `refresh` and `access`; a truthy `access_token` wins over the
      token's own access token. */
  lemma ResponseCarriesTokens(user: User, tokenData: TokenData, accessToken: Option<string>)
    ensures var data := ResponseData(user, tokenData, accessToken);
      && (tokenData.RefreshTokenData? ==> "refresh" in data && data["refresh"] == Str(tokenData.refresh))
      && (tokenData.RefreshTokenData? && !HasAccessToken(accessToken) ==>
            "access" in data && data["access"] == Str(tokenData.access))
      && (HasAccessToken(accessToken) ==> "access" in data && data["access"] == Str(accessToken.value))
  {
  }

  /** Without a dictionary, the keys are exactly the user keys plus `access` and `refresh` as
      the arguments provide them. */
  lemma ResponseKeys(user: User, tokenData: TokenData, accessToken: Option<string>)
    requires !(tokenData.DictData? && TokenDataTruthy(tokenData))
    ensures ResponseData(user, tokenData, accessToken).Keys ==
      UserKeys
      + (if tokenData.RefreshTokenData? || HasAccessToken(accessToken) then {"access"} else {})
      + (if tokenData.RefreshTokenData? then {"refresh"} else {})
  {
  }
}
