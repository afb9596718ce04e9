/** Application settings read once from the process environment. */
module Config {
  import opened Wrappers
  import opened PyStr

  /** Allowed CORS origins when ALLOWED_ORIGINS is not set. */
  const DefaultOrigins: string := "http://localhost:3000" + "," + "https://ra-gg.vercel.app" + "," + "https://*.vercel.app"
  const DefaultMaxChunkSize: int := 1000
  const DefaultChunkOverlap: int := 200

  /** The process environment: variable name to value. */
  type Env = map<string, string>

  datatype Settings = Settings(
    geminiApiKey: string,
    qdrantUrl: string,
    qdrantApiKey: string,
    allowedOrigins: string,
    maxChunkSize: int,
    chunkOverlap: int)

  /** `os.getenv(key, default)`. */
  function Getenv(env: Env, key: string, default: string): string
  {
    if key in env then env[key] else default
  }

  /**
   * Builds the settings from the environment. The two numeric variables go
   * through `int(...)`, which raises on a malformed value.
   */
  function LoadSettings(env: Env): (r: Outcome<Settings>)
    ensures r.Success? <==>
      ParseInt(Getenv(env, "MAX_CHUNK_SIZE", "1000")).Some? && ParseInt(Getenv(env, "CHUNK_OVERLAP", "200")).Some?
    ensures r.Success? ==>
      r.value.allowedOrigins == (if "ALLOWED_ORIGINS" in env then env["ALLOWED_ORIGINS"] else DefaultOrigins)
      && r.value.geminiApiKey == (if "GEMINI_API_KEY" in env then env["GEMINI_API_KEY"] else "")
  {
    var size := ParseInt(Getenv(env, "MAX_CHUNK_SIZE", "1000"));
    var overlap := ParseInt(Getenv(env, "CHUNK_OVERLAP", "200"));
    if size.None? then Failure("invalid literal for int(): MAX_CHUNK_SIZE")
    else if overlap.None? then Failure("invalid literal for int(): CHUNK_OVERLAP")
    else
      Success(Settings(
        Getenv(env, "GEMINI_API_KEY", ""),
        Getenv(env, "QDRANT_URL", ""),
        Getenv(env, "QDRANT_API_KEY", ""),
        Getenv(env, "ALLOWED_ORIGINS", DefaultOrigins),
        size.value,
        overlap.value))
  }

  /** The settings of a process whose environment sets none of the variables. */
  const DefaultSettings: Settings := Settings("", "", "", DefaultOrigins, DefaultMaxChunkSize, DefaultChunkOverlap)

  lemma SignedThousand()
    ensures ParseSigned("1000") == Some(1000)
  {
    assert DigitsValue("1") == 1 by { assert "1"[..0] == ""; }
    assert DigitsValue("10") == 10 by { assert "10"[..1] == "1"; }
    assert DigitsValue("100") == 100 by { assert "100"[..2] == "10"; }
    assert DigitsValue("1000") == 1000 by { assert "1000"[..3] == "100"; }
  }

  lemma SignedTwoHundred()
    ensures ParseSigned("200") == Some(200)
  {
    assert DigitsValue("2") == 2 by { assert "2"[..0] == ""; }
    assert DigitsValue("20") == 20 by { assert "20"[..1] == "2"; }
    assert DigitsValue("200") == 200 by { assert "200"[..2] == "20"; }
  }

  lemma ParseThousand()
    ensures ParseInt("1000") == Some(1000)
  {
    SignedThousand();
    StripUnpadded("1000");
  }

  lemma ParseTwoHundred()
    ensures ParseInt("200") == Some(200)
  {
    SignedTwoHundred();
    StripUnpadded("200");
  }

  lemma EmptyEnvironmentGivesDefaults()
    ensures LoadSettings(map[]) == Success(DefaultSettings)
  {
    ParseThousand();
    ParseTwoHundred();
  }

  /** `cors_origins`: ALLOWED_ORIGINS split on commas, each entry stripped. */
  function CorsOrigins(s: Settings): (r: seq<string>)
    ensures |r| == CountChar(s.allowedOrigins, ',') + 1
    ensures forall k :: 0 <= k < |r| ==> r[k] == Strip(Split(s.allowedOrigins, ',')[k])
  {
    StripAll(Split(s.allowedOrigins, ','))
  }

  function StripAll(parts: seq<string>): (r: seq<string>)
    ensures |r| == |parts|
    ensures forall k :: 0 <= k < |r| ==> r[k] == Strip(parts[k])
  {
    seq(|parts|, k requires 0 <= k < |parts| => Strip(parts[k]))
  }

  /** Three comma-free, unpadded origins joined by commas come back out of `cors_origins` unchanged. */
  lemma {:induction false} ThreeOrigins(s: Settings, a: string, b: string, c: string)
    requires forall i :: 0 <= i < |a| ==> a[i] != ','
    requires forall i :: 0 <= i < |b| ==> b[i] != ','
    requires forall i :: 0 <= i < |c| ==> c[i] != ','
    requires a != [] && !IsSpace(a[0]) && !IsSpace(a[|a| - 1])
    requires b != [] && !IsSpace(b[0]) && !IsSpace(b[|b| - 1])
    requires c != [] && !IsSpace(c[0]) && !IsSpace(c[|c| - 1])
    requires s.allowedOrigins == a + "," + (b + "," + c)
    ensures CorsOrigins(s) == [a, b, c]
  {
    SplitAtFirst(a, ',', b + "," + c);
    SplitAtFirst(b, ',', c);
    SplitWithoutSeparator(c, ',');
    var r := CorsOrigins(s);
    assert r[0] == a by { StripUnpadded(a); }
    assert r[1] == b by { StripUnpadded(b); }
    assert r[2] == c by { StripUnpadded(c); }
  }

  lemma DefaultCorsOriginsAreThree()
    ensures CorsOrigins(DefaultSettings) == ["http://localhost:3000", "https://ra-gg.vercel.app", "https://*.vercel.app"]
  {
    ThreeOrigins(DefaultSettings, "http://localhost:3000", "https://ra-gg.vercel.app", "https://*.vercel.app");
  }
}
