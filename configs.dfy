/** `configs.py`: integer settings read from the environment, and the check
    that the three credentials the bot needs are present. */
module Configs {
  import opened Common
  import opened Text

  // ---------------------------------------------------------------------------
  // _int_env

  /** `_int_env(name)` as the source writes it: a set, non-empty value that
      passes `str.isdigit` goes to `int()`.  `isdigit` also accepts digit
      symbols such as the superscript two, which `int()` rejects, so such a
      value raises instead of giving `None`. */
  function IntEnvAsWritten(env: Env, name: string): Result<Option<int>> {
    var val := GetEnv(env, name);
    if Truthy(val) && PyIsDigit(val.value) then
      match ParseInt(val.value)
      case Some(n) => Ok(Some(n))
      case None => Err(IntError(val.value))
    else Ok(None)
  }

  /** `API_ID=²` makes importing the configuration raise a `ValueError`. */
  lemma SuperscriptApiIdRaises()
    ensures IntEnvAsWritten(map["API_ID" := "\U{b2}"], "API_ID") == Err(IntError("\U{b2}"))
  {
    var v := "\U{b2}";
    SuperscriptTwoIsDigitSymbol();
    assert !IsDigit(v[0]);
    ParseIntOfPyDigits(v);
  }

  /** `_int_env(name)` as intended: an integer exactly when the variable is set
      to decimal digits, `None` for anything else (unset, empty, signed,
      non-numeric). */
  function IntEnv(env: Env, name: string): (r: Option<nat>)
    ensures r.Some? <==> name in env && IsDigits(env[name])
  {
    var val := GetEnv(env, name);
    if Truthy(val) && IsDigits(val.value) then Some(DigitsValue(val.value)) else None
  }

  /** A number written into the environment reads back as itself. */
  lemma IntEnvRoundTrip(env: Env, name: string, n: nat)
    ensures IntEnv(env[name := NatToString(n)], name) == Some(n)
  {
  }

  /** The source and the corrected reading agree on every value that does not
      make the source raise, and the source raises exactly on values that pass
      `isdigit` without being decimal. */
  lemma IntEnvAgrees(env: Env, name: string)
    ensures IntEnvAsWritten(env, name).Err? <==> name in env && PyIsDigit(env[name]) && !IsDigits(env[name])
    ensures IntEnvAsWritten(env, name).Ok? ==> IntEnvAsWritten(env, name).value == IntEnv(env, name)
  {
    if name in env && env[name] != "" {
      var v := env[name];
      if PyIsDigit(v) {
        ParseIntOfPyDigits(v);
        if IsDigits(v) {
          ParseIntOfDigits(v);
        }
      } else {
        DigitsArePyDigits(v);
      }
    }
  }

  /** Signed and partly numeric values are not integers here. */
  lemma IntEnvRejects()
    ensures IntEnv(map["API_ID" := "-5"], "API_ID") == None
    ensures IntEnv(map["API_ID" := "12a"], "API_ID") == None
    ensures IntEnv(map[], "API_ID") == None
  {
    assert !IsDigit('-');
    assert !IsDigit("12a"[2]);
  }

  // ---------------------------------------------------------------------------
  // validate

  /** The required settings, in the order they are reported. */
  const RequiredKeys: seq<string> := ["API_ID", "API_HASH", "BOT_TOKEN"]

  /** `API_ID` is missing when `_int_env` gives `None`; the other two when
      unset or empty. */
  predicate IsMissing(env: Env, key: string) {
    if key == "API_ID" then IntEnv(env, key).None? else !Truthy(GetEnv(env, key))
  }

  /** The keys among `keys` that are missing, in their order in `keys`. */
  function MissingAmong(env: Env, keys: seq<string>): seq<string> {
    if keys == [] then []
    else
      var rest := MissingAmong(env, keys[1..]);
      if IsMissing(env, keys[0]) then [keys[0]] + rest else rest
  }

  /** The keys reported are exactly the missing ones, in the order of `keys`. */
  lemma {:induction false} MissingAmongExact(env: Env, keys: seq<string>)
    ensures ExactlyMissing(env, keys, MissingAmong(env, keys))
    ensures IsSubsequence(MissingAmong(env, keys), keys)
  {
    if keys != [] {
      MissingAmongExact(env, keys[1..]);
      assert keys == [keys[0]] + keys[1..];
    }
  }

  /** `missing` holds exactly the keys of `keys` that are missing. */
  predicate ExactlyMissing(env: Env, keys: seq<string>, missing: seq<string>) {
    && (forall k | k in missing :: k in keys && IsMissing(env, k))
    && (forall k | k in keys && IsMissing(env, k) :: k in missing)
  }

  /** `sub` is `full` with some elements left out, the rest kept in order. */
  predicate IsSubsequence(sub: seq<string>, full: seq<string>) {
    if sub == [] then true
    else if full == [] then false
    else if sub[0] == full[0] then IsSubsequence(sub[1..], full[1..])
    else IsSubsequence(sub, full[1..])
  }

  lemma {:induction false} MissingAmongCons(env: Env, key: string, rest: seq<string>)
    ensures MissingAmong(env, [key] + rest) == (if IsMissing(env, key) then [key] else []) + MissingAmong(env, rest)
  {
    assert ([key] + rest)[1..] == rest;
  }

  lemma RequiredKeyChecks(env: Env)
    ensures IsMissing(env, "API_ID") == IntEnv(env, "API_ID").None?
    ensures IsMissing(env, "API_HASH") == !Truthy(GetEnv(env, "API_HASH"))
    ensures IsMissing(env, "BOT_TOKEN") == !Truthy(GetEnv(env, "BOT_TOKEN"))
  {
    assert |"API_HASH"| != |"API_ID"| && |"BOT_TOKEN"| != |"API_ID"|;
  }

  /** The last two checks of `validate`. */
  lemma MissingAmongTail(env: Env)
    ensures MissingAmong(env, ["API_HASH", "BOT_TOKEN"])
      == (if !Truthy(GetEnv(env, "API_HASH")) then ["API_HASH"] else [])
       + (if !Truthy(GetEnv(env, "BOT_TOKEN")) then ["BOT_TOKEN"] else [])
  {
    var last: seq<string> := ["BOT_TOKEN"];
    RequiredKeyChecks(env);
    assert MissingAmong(env, last) == (if !Truthy(GetEnv(env, "BOT_TOKEN")) then ["BOT_TOKEN"] else []) by {
      MissingAmongCons(env, "BOT_TOKEN", []);
      assert last == ["BOT_TOKEN"] + [];
    }
    MissingAmongCons(env, "API_HASH", last);
    assert ["API_HASH", "BOT_TOKEN"] == ["API_HASH"] + last;
  }

  /** The three checks of `validate`, one key after the other. */
  lemma MissingAmongRequired(env: Env)
    ensures MissingAmong(env, RequiredKeys)
      == (if IntEnv(env, "API_ID").None? then ["API_ID"] else [])
       + (if !Truthy(GetEnv(env, "API_HASH")) then ["API_HASH"] else [])
       + (if !Truthy(GetEnv(env, "BOT_TOKEN")) then ["BOT_TOKEN"] else [])
  {
    var tail: seq<string> := ["API_HASH", "BOT_TOKEN"];
    RequiredKeyChecks(env);
    MissingAmongTail(env);
    MissingAmongCons(env, "API_ID", tail);
    assert RequiredKeys == ["API_ID"] + tail;
  }

  function MissingMessage(missing: seq<string>): string {
    "Missing required environment variables: " + JoinWith(missing, ", ") + ". Set them before starting the bot."
  }

  /** `validate()`: collects the missing keys one check at a time and raises
      when there is at least one. */
  method Validate(env: Env) returns (r: Outcome)
    ensures r.Fail? <==> exists k | k in RequiredKeys :: IsMissing(env, k)
    ensures r.Fail? ==> r.error == RuntimeError(MissingMessage(MissingAmong(env, RequiredKeys)))
  {
    var missing: seq<string> := [];
    if IntEnv(env, "API_ID").None? {
      missing := missing + ["API_ID"];
    }
    if !Truthy(GetEnv(env, "API_HASH")) {
      missing := missing + ["API_HASH"];
    }
    if !Truthy(GetEnv(env, "BOT_TOKEN")) {
      missing := missing + ["BOT_TOKEN"];
    }
    MissingAmongRequired(env);
    assert missing == MissingAmong(env, RequiredKeys);
    MissingAmongExact(env, RequiredKeys);
    assert ExactlyMissing(env, RequiredKeys, missing);
    if missing != [] {
      assert missing[0] in RequiredKeys && IsMissing(env, missing[0]);
      r := Fail(RuntimeError(MissingMessage(missing)));
    } else {
      r := Pass;
    }
  }

  /** Validation passes exactly when all three are present, and then `API_ID`
      is a number and the other two are non-empty. */
  lemma ValidatePassesWhenComplete(env: Env)
    ensures MissingAmong(env, RequiredKeys) == [] <==>
      IntEnv(env, "API_ID").Some? && Truthy(GetEnv(env, "API_HASH")) && Truthy(GetEnv(env, "BOT_TOKEN"))
  {
    MissingAmongRequired(env);
  }

  /** An empty `API_HASH` or `BOT_TOKEN` counts as missing, and so does a
      non-numeric `API_ID`; they are reported in the fixed order. */
  lemma AllMissingInOrder()
    ensures MissingAmong(map["API_ID" := "abc", "API_HASH" := "", "BOT_TOKEN" := ""], RequiredKeys)
      == ["API_ID", "API_HASH", "BOT_TOKEN"]
  {
    var env := map["API_ID" := "abc", "API_HASH" := "", "BOT_TOKEN" := ""];
    assert !IsDigit("abc"[0]);
    assert GetEnv(env, "API_HASH") == Some("") && GetEnv(env, "BOT_TOKEN") == Some("");
    MissingAmongRequired(env);
  }

  /** Only the absent key is reported when the others are valid. */
  lemma OnlyTokenMissing()
    ensures MissingAmong(map["API_ID" := "7", "API_HASH" := "h"], RequiredKeys) == ["BOT_TOKEN"]
  {
    var env := map["API_ID" := "7", "API_HASH" := "h"];
    assert IsDigit("7"[0]);
    assert GetEnv(env, "API_HASH") == Some("h") && GetEnv(env, "BOT_TOKEN") == None;
    MissingAmongRequired(env);
  }
}
