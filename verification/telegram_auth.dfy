/** `TelegramAuthService`: the init-data check and the `TgAuth` header. */
module TelegramAuth {
  import opened Results

  const Scheme: string := "TgAuth "

  /** `validateInitData`: only the empty string is refused. */
  predicate ValidateInitData(initData: string) {
    |initData| != 0
  }

  /** `getAuthHeader`: `TgAuth <initData>` for non-empty init data. */
  function GetAuthHeader(initData: string): (h: Option<string>)
    ensures h.Some? <==> |initData| > 0
    ensures h.Some? ==> |h.value| == |Scheme| + |initData|
    ensures h.Some? ==> h.value[..|Scheme|] == Scheme && h.value[|Scheme|..] == initData
  {
    if ValidateInitData(initData) then Some(Scheme + initData) else None
  }

  /** The init data pass validation exactly when they yield a header. */
  lemma ValidIffHeader(initData: string)
    ensures ValidateInitData(initData) <==> GetAuthHeader(initData).Some?
    ensures ValidateInitData(initData) <==> initData != ""
  {
  }

  /** Recovering the credential from a header by dropping the scheme. */
  function Credential(header: string): Option<string> {
    if |header| >= |Scheme| && header[..|Scheme|] == Scheme then Some(header[|Scheme|..]) else None
  }

  /** The header round-trips to the init data it was built from. */
  lemma AuthHeaderRoundTrip(initData: string)
    requires |initData| > 0
    ensures Credential(GetAuthHeader(initData).value) == Some(initData)
  {
  }

  /** Distinct init data give distinct headers. */
  lemma AuthHeaderInjective(a: string, b: string)
    requires |a| > 0 && |b| > 0
    requires GetAuthHeader(a) == GetAuthHeader(b)
    ensures a == b
  {
    AuthHeaderRoundTrip(a);
    AuthHeaderRoundTrip(b);
  }

  datatype TelegramUser = TelegramUser(id: int, firstName: string, lastName: Option<string>, username: Option<string>)

  /** `extractUserFromInitData`: decoding is not implemented; it always
      yields null. */
  function ExtractUserFromInitData(initData: string): (u: Option<TelegramUser>)
    ensures u.None?
  {
    None
  }
}
