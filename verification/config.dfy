/** The configuration manager (src/config/config.js): lookups over the process
    environment, the repository list, the GitHub token taken from the secure
    store or the environment, configuration validation, and the writes to the
    secure store. The environment is a map from variable name to value; the
    secure store is reduced to its one `GITHUB_TOKEN` entry. */
module Config {
  import opened Wrappers
  import opened JsText

  type Env = map<string, string>

  const TokenKey := "GITHUB_TOKEN"
  const OrgKey := "GITHUB_ORG"
  const RepositoriesKey := "REPOSITORIES"
  const TokenPlaceholder := "your_github_token_here"
  const OrgPlaceholder := "your_organization_name_here"

  const TokenMissing := "GitHub 토큰이 설정되지 않았습니다. setGitHubToken() 메서드를 사용하여 토큰을 설정하세요."
  const InvalidTokenInput := "유효한 GitHub 토큰을 입력해주세요."
  const SaveFailedPrefix := "토큰 저장 실패: "

  const TokenError := "GitHub Token이 설정되지 않았습니다."
  const OrgError := "GITHUB_ORG가 설정되지 않았습니다."
  const RepositoriesError := "REPOSITORIES가 설정되지 않았습니다."
  const PlaintextTokenWarning := ".env 파일에 평문 토큰이 있습니다. 보안상 제거를 권장합니다."

  /** `process.env[key]`: `None` when the variable is unset. */
  function Lookup(env: Env, key: string): Option<string> {
    if key in env then Some(env[key]) else None
  }

  /** `get(key, defaultValue)`: `process.env[key] || defaultValue`. */
  function Get(env: Env, key: string, default: Option<string>): (r: Option<string>)
    ensures key in env && env[key] != "" ==> r == Some(env[key])
    ensures key !in env || env[key] == "" ==> r == default
    ensures Truthy(r) ==> Truthy(default) || (key in env && r.value == env[key])
  {
    var v := Lookup(env, key);
    if Truthy(v) then v else default
  }

  /** A piece of the repository list that is kept: `repo.trim()` is truthy. */
  predicate NonBlank(p: string) {
    !IsBlank(p)
  }

  /** `getAll().repositories`: `REPOSITORIES` (default `''`) split on `,`,
      keeping the pieces that are not all white space, untrimmed. */
  function Repositories(env: Env): (r: seq<string>)
    ensures forall i :: 0 <= i < |r| ==> NonBlank(r[i]) && ',' !in r[i]
    ensures forall p :: p in r <==> p in Split(Get(env, RepositoriesKey, Some("")).value, ',') && NonBlank(p)
    ensures RepositoriesKey !in env ==> r == []
    // each non-blank piece as often as the setting holds it, no blank one
    ensures forall p :: multiset(r)[p]
                        == if NonBlank(p) then multiset(Split(Get(env, RepositoriesKey, Some("")).value, ','))[p] else 0
  {
    var raw := Get(env, RepositoriesKey, Some("")).value;
    assert RepositoriesKey !in env ==> Split(raw, ',') == [[]];
    var pieces := Split(raw, ',');
    assert forall p :: multiset(Filter(pieces, NonBlank))[p] == if NonBlank(p) then multiset(pieces)[p] else 0 by {
      forall p ensures multiset(Filter(pieces, NonBlank))[p] == if NonBlank(p) then multiset(pieces)[p] else 0 {
        FilterCount(pieces, NonBlank, p);
      }
    }
    Filter(pieces, NonBlank)
  }

  /** The names before a comma are listed before the names after it. */
  lemma RepositoriesAppend(env: Env, a: string, b: string)
    requires RepositoriesKey in env && env[RepositoriesKey] == a + "," + b
    ensures Repositories(env) == Repositories(env[RepositoriesKey := a]) + Repositories(env[RepositoriesKey := b])
  {
    SplitAppend(a, b, ',');
    FilterAppend(Split(a, ','), Split(b, ','), NonBlank);
  }

  /** A single repository name without commas is the whole list, spaces included. */
  lemma RepositoriesSingle(env: Env, name: string)
    requires RepositoriesKey in env && env[RepositoriesKey] == name
    requires NonBlank(name) && ',' !in name
    ensures Repositories(env) == [name]
  {
    SplitWithoutSeparator(name, ',');
    assert name != "";
  }

  /** `getGitHubToken()`: the secure-store token when it is truthy, otherwise
      `process.env.GITHUB_TOKEN`; an empty, missing or placeholder token is an
      error. A placeholder in the store is not skipped in favour of the
      environment. */
  function GitHubToken(store: Option<string>, env: Env): (r: Result<string, string>)
    ensures Truthy(store) ==> (r.Ok? <==> store.value != TokenPlaceholder)
    ensures Truthy(store) && r.Ok? ==> r.value == store.value
    ensures !Truthy(store) ==>
              (r.Ok? <==> TokenKey in env && env[TokenKey] != "" && env[TokenKey] != TokenPlaceholder)
    ensures !Truthy(store) && r.Ok? ==> r.value == env[TokenKey]
    ensures r.Ok? ==> r.value != "" && r.value != TokenPlaceholder
    ensures r.Err? ==> r.error == TokenMissing
  {
    var token := if Truthy(store) then store else Lookup(env, TokenKey);
    if !Truthy(token) || token.value == TokenPlaceholder then Err(TokenMissing)
    else Ok(token.value)
  }

  /** The result of `validate()`. */
  datatype Validation = Validation(isValid: bool, errors: seq<string>, warnings: seq<string>)

  /** The position of each validation error in the order `validate` checks them. */
  function ErrorRank(e: string): nat {
    if e == TokenError then 0 else if e == OrgError then 1 else 2
  }

  /** The errors `validate` reports, given which of its three checks fail,
      in the order it makes them. */
  function ErrorList(tokenMissing: bool, orgMissing: bool, reposMissing: bool): (r: seq<string>)
    ensures TokenError in r <==> tokenMissing
    ensures OrgError in r <==> orgMissing
    ensures RepositoriesError in r <==> reposMissing
    ensures forall e :: e in r ==> e == TokenError || e == OrgError || e == RepositoriesError
    ensures forall i, j :: 0 <= i < j < |r| ==> ErrorRank(r[i]) < ErrorRank(r[j])
    ensures r == [] <==> !tokenMissing && !orgMissing && !reposMissing
  {
    (if tokenMissing then [TokenError] else [])
    + (if orgMissing then [OrgError] else [])
    + (if reposMissing then [RepositoriesError] else [])
  }

  /** `validate()`: errors for a missing token, a missing or placeholder
      organisation and a missing repository list, in that order; a warning
      when the environment holds a real plaintext token. */
  function Validate(store: Option<string>, env: Env): (r: Validation)
    ensures TokenError in r.errors <==> GitHubToken(store, env).Err?
    ensures OrgError in r.errors <==>
              !Truthy(Get(env, OrgKey, None)) || Get(env, OrgKey, None).value == OrgPlaceholder
    ensures RepositoriesError in r.errors <==> !Truthy(Get(env, RepositoriesKey, None))
    ensures forall e :: e in r.errors ==> e == TokenError || e == OrgError || e == RepositoriesError
    ensures forall i, j :: 0 <= i < j < |r.errors| ==> ErrorRank(r.errors[i]) < ErrorRank(r.errors[j])
    ensures r.isValid <==> r.errors == []
    ensures PlaintextTokenWarning in r.warnings <==>
              TokenKey in env && env[TokenKey] != "" && env[TokenKey] != TokenPlaceholder
    ensures forall w :: w in r.warnings ==> w == PlaintextTokenWarning
  {
    var org := Get(env, OrgKey, None);
    var errors := ErrorList(GitHubToken(store, env).Err?,
                            !Truthy(org) || org.value == OrgPlaceholder,
                            !Truthy(Get(env, RepositoriesKey, None)));
    var plain := Lookup(env, TokenKey);
    var warnings := if Truthy(plain) && plain.value != TokenPlaceholder then [PlaintextTokenWarning] else [];
    Validation(errors == [], errors, warnings)
  }

  /** A validation can pass while the repository list is empty: a list made
      only of commas and spaces is truthy but has no repository in it. */
  lemma ValidWithNoRepositories()
    ensures var env := map[TokenKey := "t", OrgKey := "org", RepositoriesKey := " ,"];
            Validate(None, env).isValid && Repositories(env) == []
  {
    var env := map[TokenKey := "t", OrgKey := "org", RepositoriesKey := " ,"];
    assert " ,"[1..] == "," && ","[1..] == "";
    assert Split(",", ',') == [[], []];
    var rest := Split(",", ',');
    assert Split(" ,", ',') == [[' '] + rest[0]] + rest[1..];
    assert [' '] + rest[0] == " ";
    assert !NonBlank(" ") && !NonBlank("");
    assert Filter([" ", ""], NonBlank) == [];
  }

  predicate IsAsciiAlnum(c: char) {
    ('a' <= c <= 'z') || ('A' <= c <= 'Z') || ('0' <= c <= '9')
  }

  /** The pattern `^ghp_[a-zA-Z0-9]{36}$` of a classic personal access token. */
  predicate IsClassicTokenFormat(t: string) {
    |t| == 40 && t[..4] == "ghp_" && forall i :: 4 <= i < 40 ==> IsAsciiAlnum(t[i])
  }

  /** The configuration manager: the environment it reads and the token held
      in the secure store, which `initializeTokens` and `setGitHubToken` write. */
  class ConfigManager {
    const env: Env
    var secureToken: Option<string>

    /** Construction runs `initializeTokens`: a real plaintext token in the
        environment is migrated into the store unless the write fails
        (`saveError`), in which case the failure is only logged. */
    constructor (env: Env, stored: Option<string>, saveError: Option<string>)
      ensures this.env == env
      ensures secureToken ==
                if MigratesToken(env) && saveError.None? then Some(env[TokenKey]) else stored
    {
      this.env := env;
      secureToken := stored;
      new;
      InitializeTokens(saveError);
    }

    /** `initializeTokens` moves the token when the environment holds one that is not the placeholder. */
    static predicate MigratesToken(env: Env) {
      TokenKey in env && env[TokenKey] != "" && env[TokenKey] != TokenPlaceholder
    }

    method InitializeTokens(saveError: Option<string>)
      modifies this
      ensures secureToken ==
                if MigratesToken(env) && saveError.None? then Some(env[TokenKey]) else old(secureToken)
    {
      var plain := Lookup(env, TokenKey);
      if Truthy(plain) && plain.value != TokenPlaceholder {
        if saveError.None? {
          secureToken := plain;
        }
      }
    }

    /** `setGitHubToken(token)`: `None` stands for a value that is not a
        string. An empty or non-string token is refused and nothing is saved;
        a failed write is reported with the storage error. Otherwise the
        token is saved as given; `Ok(true)` means the format warning was
        printed because the token does not look like a classic access token. */
    method SetGitHubToken(token: Option<string>, saveError: Option<string>) returns (r: Result<bool, string>)
      modifies this
      ensures !Truthy(token) ==> r == Err(InvalidTokenInput) && secureToken == old(secureToken)
      ensures Truthy(token) && saveError.Some? ==>
                r == Err(SaveFailedPrefix + saveError.value) && secureToken == old(secureToken)
      ensures Truthy(token) && saveError.None? ==>
                r == Ok(!IsClassicTokenFormat(token.value)) && secureToken == token
    {
      if !Truthy(token) {
        return Err(InvalidTokenInput);
      }
      var warned := !IsClassicTokenFormat(token.value);
      if saveError.Some? {
        return Err(SaveFailedPrefix + saveError.value);
      }
      secureToken := token;
      r := Ok(warned);
    }
  }
}
