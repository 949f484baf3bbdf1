/**
 * The string logic of the application settings (app/core/config.py): the CORS origin
 * list derived from the comma-separated `cors_origins` setting, and the development flag.
 * Python's `str.split(",")` and `str.strip()` are written out so that the origin list
 * can be specified exactly.
 */
module Config {
  import opened Wrappers

  /** The settings record; loading it from the environment is not part of this model. */
  datatype Settings = Settings(
    appName: string,
    debug: bool,
    version: string,
    host: string,
    port: int,
    databaseUrl: string,
    redisUrl: string,
    postgresUser: Option<string>,
    postgresPassword: Option<string>,
    postgresDb: Option<string>,
    postgresHost: Option<string>,
    postgresPort: Option<int>,
    secretKey: string,
    accessTokenExpireMinutes: int,
    corsOrigins: string)

  // ---------------------------------------------------------------------------
  // Python's str.split(sep) for a one-character separator

  /** How many times `c` occurs in `s`. */
  function Occurrences(s: string, c: char): nat
  {
    if s == [] then 0 else (if s[0] == c then 1 else 0) + Occurrences(s[1..], c)
  }

  /** `s.split(sep)`: the pieces between separators, empty pieces included. */
  function Split(s: string, sep: char): (parts: seq<string>)
    ensures |parts| == Occurrences(s, sep) + 1
    ensures forall i :: 0 <= i < |parts| ==> sep !in parts[i]
  {
    if s == [] then [""]
    else
      var rest := Split(s[1..], sep);
      if s[0] == sep then [""] + rest
      else [[s[0]] + rest[0]] + rest[1..]
  }

  /** `sep.join(parts)`. */
  function JoinWith(parts: seq<string>, sep: char): string
    requires parts != []
  {
    if |parts| == 1 then parts[0] else parts[0] + [sep] + JoinWith(parts[1..], sep)
  }

  lemma JoinWithConsHead(c: char, parts: seq<string>, sep: char)
    requires parts != []
    ensures JoinWith([[c] + parts[0]] + parts[1..], sep) == [c] + JoinWith(parts, sep)
  {
  }

  /** Joining the pieces with the separator gives back the original text. */
  lemma {:induction false} SplitThenJoin(s: string, sep: char)
    ensures JoinWith(Split(s, sep), sep) == s
  {
    if s != [] {
      var rest := Split(s[1..], sep);
      SplitThenJoin(s[1..], sep);
      if s[0] == sep {
        assert ([""] + rest)[1..] == rest;
      } else {
        JoinWithConsHead(s[0], rest, sep);
      }
      assert s == [s[0]] + s[1..];
    }
  }

  lemma {:induction false} SplitNoSeparator(p: string, sep: char)
    requires sep !in p
    ensures Split(p, sep) == [p]
  {
    if p != [] {
      SplitNoSeparator(p[1..], sep);
      assert p == [p[0]] + p[1..];
    }
  }

  lemma {:induction false} SplitPieceThenRest(p: string, sep: char, rest: string)
    requires sep !in p
    ensures Split(p + [sep] + rest, sep) == [p] + Split(rest, sep)
  {
    var s := p + [sep] + rest;
    if p == [] {
      assert s[1..] == rest;
    } else {
      assert s[1..] == p[1..] + [sep] + rest;
      SplitPieceThenRest(p[1..], sep, rest);
      assert [p[0]] + p[1..] == p;
    }
  }

  /** Splitting pieces joined with a separator none of them holds gives the pieces back. */
  lemma {:induction false} JoinThenSplit(parts: seq<string>, sep: char)
    requires parts != []
    requires forall i :: 0 <= i < |parts| ==> sep !in parts[i]
    ensures Split(JoinWith(parts, sep), sep) == parts
  {
    if |parts| == 1 {
      SplitNoSeparator(parts[0], sep);
    } else {
      JoinThenSplit(parts[1..], sep);
      SplitPieceThenRest(parts[0], sep, JoinWith(parts[1..], sep));
      assert [parts[0]] + parts[1..] == parts;
    }
  }

  // ---------------------------------------------------------------------------
  // Python's str.strip() with no argument

  /** The characters for which Python's `str.isspace()` holds. */
  predicate IsSpace(c: char)
  {
    var n := c as int;
    || 0x09 <= n <= 0x0D || 0x1C <= n <= 0x20
    || n == 0x85 || n == 0xA0 || n == 0x1680
    || 0x2000 <= n <= 0x200A
    || n == 0x2028 || n == 0x2029 || n == 0x202F || n == 0x205F || n == 0x3000
  }

  predicate AllSpace(s: string)
  {
    forall k :: 0 <= k < |s| ==> IsSpace(s[k])
  }

  /** Neither the first nor the last character is whitespace. */
  predicate NoEdgeSpace(s: string)
  {
    s == [] || (!IsSpace(s[0]) && !IsSpace(s[|s| - 1]))
  }

  /** The length of the longest all-whitespace prefix. */
  function LeadingSpaces(s: string): (n: nat)
    ensures n <= |s| && AllSpace(s[..n])
    ensures n < |s| ==> !IsSpace(s[n])
  {
    if s == [] || !IsSpace(s[0]) then 0 else 1 + LeadingSpaces(s[1..])
  }

  /** The length of the longest all-whitespace suffix. */
  function TrailingSpaces(s: string): (n: nat)
    ensures n <= |s| && AllSpace(s[|s| - n..])
    ensures n < |s| ==> !IsSpace(s[|s| - 1 - n])
  {
    if s == [] || !IsSpace(s[|s| - 1]) then 0 else 1 + TrailingSpaces(s[..|s| - 1])
  }

  /**
   * `s.strip()`: the slice of `s` left after removing all leading and all trailing
   * whitespace; nothing but whitespace is removed, and no whitespace is left at either end.
   */
  function Strip(s: string): (r: string)
    ensures NoEdgeSpace(r)
    ensures exists i, j :: 0 <= i <= j <= |s| && r == s[i..j] && AllSpace(s[..i]) && AllSpace(s[j..])
  {
    var i := LeadingSpaces(s);
    var t := s[i..];
    var j := i + |t| - TrailingSpaces(t);
    assert t[..|t| - TrailingSpaces(t)] == s[i..j];
    assert s[j..] == t[|t| - TrailingSpaces(t)..];
    s[i..j]
  }

  /** Stripping twice is stripping once. */
  lemma StripIdempotent(s: string)
    ensures Strip(Strip(s)) == Strip(s)
  {
  }

  // ---------------------------------------------------------------------------
  // Settings.cors_origins_list and Settings.is_development

  /** Strip every piece, keeping the order. */
  function StripAll(parts: seq<string>): (stripped: seq<string>)
    ensures |stripped| == |parts|
    ensures forall i :: 0 <= i < |parts| ==> stripped[i] == Strip(parts[i])
  {
    if parts == [] then [] else [Strip(parts[0])] + StripAll(parts[1..])
  }

  /** `[origin.strip() for origin in cors.split(",")]`. */
  function SplitOrigins(cors: string): (origins: seq<string>)
    ensures |origins| == Occurrences(cors, ',') + 1
    ensures forall i :: 0 <= i < |origins| ==> NoEdgeSpace(origins[i]) && ',' !in origins[i]
  {
    StripAll(Split(cors, ','))
  }

  /**
   * `Settings.cors_origins_list`: exactly ["*"] when the setting is exactly "*", otherwise
   * one stripped entry per comma-separated segment.
   */
  function CorsOriginsList(settings: Settings): (origins: seq<string>)
    ensures settings.corsOrigins == "*" ==> origins == ["*"]
    ensures settings.corsOrigins != "*" ==> |origins| == Occurrences(settings.corsOrigins, ',') + 1
    ensures forall i :: 0 <= i < |origins| ==> NoEdgeSpace(origins[i]) && ',' !in origins[i]
  {
    if settings.corsOrigins == "*" then ["*"] else SplitOrigins(settings.corsOrigins)
  }

  /**
   * Outside the wildcard case the entries are the comma-separated segments of the
   * setting, in order, each with its surrounding whitespace stripped: joined with commas,
   * the segments give back the setting.
   */
  lemma CorsOriginsAreStrippedSegments(settings: Settings)
    requires settings.corsOrigins != "*"
    ensures var segments := Split(settings.corsOrigins, ',');
      && JoinWith(segments, ',') == settings.corsOrigins
      && |CorsOriginsList(settings)| == |segments|
      && forall i :: 0 <= i < |segments| ==> CorsOriginsList(settings)[i] == Strip(segments[i])
  {
    SplitThenJoin(settings.corsOrigins, ',');
  }

  /**
   * The wildcard is taken only on exact equality: "*,a" (or "*," followed by any other
   * origin) goes through the split path and keeps "*" as an ordinary entry.
   */
  lemma WildcardOnlyOnExactMatch(settings: Settings, origin: string)
    requires settings.corsOrigins == "*" + [','] + origin
    requires ',' !in origin && NoEdgeSpace(origin)
    ensures CorsOriginsList(settings) == ["*", origin]
  {
    assert |settings.corsOrigins| > |"*"|;
    SplitTwoOrigins("*", origin);
  }

  /** Two comma-free origins without surrounding whitespace, joined by a comma, split back into the two. */
  lemma SplitTwoOrigins(first: string, second: string)
    requires ',' !in first && NoEdgeSpace(first)
    requires ',' !in second && NoEdgeSpace(second)
    ensures SplitOrigins(first + [','] + second) == [first, second]
  {
    var segments := Split(first + [','] + second, ',');
    SplitPieceThenRest(first, ',', second);
    SplitNoSeparator(second, ',');
    assert segments == [first, second];
    assert segments[1..] == [second] && [second][1..] == [];
    StripOfSolid(first);
    StripOfSolid(second);
    assert StripAll([second]) == [second];
    assert StripAll(segments) == [first] + StripAll([second]);
  }

  /** An empty setting yields one empty origin. */
  lemma EmptySettingYieldsEmptyOrigin(settings: Settings)
    requires settings.corsOrigins == ""
    ensures CorsOriginsList(settings) == [""]
  {
  }

  /** A string with no whitespace at either end is its own strip. */
  lemma StripOfSolid(s: string)
    requires NoEdgeSpace(s)
    ensures Strip(s) == s
  {
  }

  /**
   * The wildcard branch never changes the outcome: the split path maps "*" to ["*"] too,
   * so the origin list is always the split-and-strip of the setting.
   */
  lemma WildcardBranchAgreesWithSplit(settings: Settings)
    ensures CorsOriginsList(settings) == SplitOrigins(settings.corsOrigins)
  {
  }

  /** `Settings.is_development`: the debug flag. */
  function IsDevelopment(settings: Settings): (dev: bool)
    ensures dev <==> settings.debug
  {
    settings.debug
  }

  /**
   * The settings built from the declared field defaults; the database and Redis URLs
   * have no default and must be supplied.
   */
  function DefaultSettings(databaseUrl: string, redisUrl: string): (s: Settings)
    ensures !IsDevelopment(s)
    ensures CorsOriginsList(s) == ["*"]
    ensures s.databaseUrl == databaseUrl && s.redisUrl == redisUrl
  {
    Settings(
      appName := "Realtime Editor API",
      debug := false,
      version := "1.0.0",
      host := "0.0.0.0",
      port := 8000,
      databaseUrl := databaseUrl,
      redisUrl := redisUrl,
      postgresUser := None,
      postgresPassword := None,
      postgresDb := None,
      postgresHost := None,
      postgresPort := None,
      secretKey := "your-secret-key-change-in-production",
      accessTokenExpireMinutes := 30,
      corsOrigins := "*")
  }
}
