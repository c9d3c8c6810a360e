/** The API server's configuration derived from its environment: the CORS origin list and
    the flag that disables global settings. The environment is a parameter. */
module ServerConfig {
  import opened Wrappers
  import Text

  /** `string | string[]`: one origin, or a list of them. */
  datatype Origins = Single(origin: string) | Many(origins: seq<string>)

  const DevOrigin: string := "http://localhost:5024"
  const ViteOrigin: string := "http://localhost:5173"

  function AsList(o: Origins): seq<string> {
    match o
    case Single(x) => [x]
    case Many(xs) => xs
  }

  /** Every entry trimmed. */
  function TrimAll(parts: seq<string>): (r: seq<string>)
    ensures |r| == |parts|
    ensures forall k :: 0 <= k < |parts| ==> r[k] == Text.Trim(parts[k])
  {
    seq(|parts|, k requires 0 <= k < |parts| => Text.Trim(parts[k]))
  }

  /** `parseOrigins`. */
  function ParseOrigins(s: string): (r: Origins)
    ensures !Text.Contains(s, "https://") ==> r.Many? && |r.origins| >= 3 && r.origins[|r.origins| - 2..] == [DevOrigin, ViteOrigin]
  {
    Assemble(TrimAll(Text.Split(s, ',')), Text.Contains(s, "https://"))
  }

  /** The trimmed entries, followed by the two local origins unless an https origin was
      named; a single entry is returned as a string. */
  function Assemble(origins: seq<string>, https: bool): Origins {
    var all := if !https then origins + [DevOrigin, ViteOrigin] else origins;
    if |all| == 1 then Single(all[0]) else Many(all)
  }

  /** The entries are the trimmed pieces between commas, followed by the two local
      development origins unless the input names an https origin; the result is a single
      string exactly when one entry remains, which only https input can give. */
  lemma ParseOriginsSpec(s: string)
    ensures Text.Contains(s, "https://") ==> AsList(ParseOrigins(s)) == TrimAll(Text.Split(s, ','))
    ensures !Text.Contains(s, "https://") ==>
      AsList(ParseOrigins(s)) == TrimAll(Text.Split(s, ',')) + [DevOrigin, ViteOrigin]
    ensures ParseOrigins(s).Single? <==> |AsList(ParseOrigins(s))| == 1
    ensures ParseOrigins(s).Single? ==> Text.Contains(s, "https://") && ',' !in s
  {
    if ParseOrigins(s).Single? && ',' in s {
      Text.SplitCount(s, ',');
      Text.CountPositive(s, ',');
    }
  }

  /** An origin entry as `parseOrigins` leaves it: no comma, and no white space at either
      end. */
  predicate CleanEntry(o: string) {
    ',' !in o && (|o| == 0 || (!Text.IsJsSpace(o[0]) && !Text.IsJsSpace(o[|o| - 1])))
  }

  /** Every entry is clean. */
  lemma ParsedEntriesClean(s: string)
    ensures forall k :: 0 <= k < |AsList(ParseOrigins(s))| ==> CleanEntry(AsList(ParseOrigins(s))[k])
  {
    ParseOriginsSpec(s);
    var trimmed := TrimAll(Text.Split(s, ','));
    TrimmedPiecesClean(s);
    var l := AsList(ParseOrigins(s));
    if Text.Contains(s, "https://") {
      assert l == trimmed;
    } else {
      LocalOriginsClean();
      assert l == trimmed + [DevOrigin, ViteOrigin];
      forall k | 0 <= k < |l| ensures CleanEntry(l[k]) {
        if k < |trimmed| {
          assert l[k] == trimmed[k];
        }
      }
    }
  }

  /** The trimmed pieces between commas are clean. */
  lemma TrimmedPiecesClean(s: string)
    ensures forall k :: 0 <= k < |TrimAll(Text.Split(s, ','))| ==> CleanEntry(TrimAll(Text.Split(s, ','))[k])
  {
    var parts := Text.Split(s, ',');
    forall k | 0 <= k < |parts| ensures CleanEntry(TrimAll(parts)[k]) {
      PieceKeepsAbsence(parts[k], Text.Trim(parts[k]), ',');
    }
  }

  lemma LocalOriginsClean()
    ensures CleanEntry(DevOrigin) && CleanEntry(ViteOrigin)
  {
  }

  /** A piece of a string holds no character the string lacks. */
  lemma PieceKeepsAbsence(s: string, piece: string, c: char)
    requires Text.Contains(s, piece) && c !in s
    ensures c !in piece
  {
    var i :| 0 <= i <= |s| && piece <= s[i..];
    forall k | 0 <= k < |piece| ensures piece[k] == s[i + k] {}
  }

  /** `CORS_ORIGIN || 'http://localhost:5173'`, parsed. */
  function CorsOrigins(env: Option<string>): Origins {
    ParseOrigins(if env.Some? && env.value != "" then env.value else ViteOrigin)
  }

  /** Without `CORS_ORIGIN` the list is the Vite origin, the development origin, and the
      Vite origin a second time. */
  lemma DefaultCorsOrigins()
    ensures CorsOrigins(None) == Many([ViteOrigin, DevOrigin, ViteOrigin])
  {
    ViteOriginPlain();
    ViteOriginNotHttps();
    PlainOrigin(ViteOrigin);
  }

  /** A single plain http origin is kept and followed by the two local origins. */
  lemma PlainOrigin(s: string)
    requires ',' !in s && forall i :: 0 <= i < |s| ==> !Text.IsJsSpace(s[i])
    requires !Text.Contains(s, "https://")
    ensures ParseOrigins(s) == Many([s, DevOrigin, ViteOrigin])
  {
    Text.SplitNoSeparator(s, ',');
    Text.TrimNoSpace(s);
    SingleTrimmed(s);
    ParseTrimmed(s);
  }

  lemma SingleTrimmed(s: string)
    requires Text.Split(s, ',') == [s] && Text.Trim(s) == s
    ensures TrimAll(Text.Split(s, ',')) == [s]
  {
  }

  lemma ParseTrimmed(s: string)
    requires TrimAll(Text.Split(s, ',')) == [s] && !Text.Contains(s, "https://")
    ensures ParseOrigins(s) == Many([s, DevOrigin, ViteOrigin])
  {
    assert ParseOrigins(s) == Assemble([s], false);
    AssembleOne(s);
  }

  lemma AssembleOne(s: string)
    ensures Assemble([s], false) == Many([s, DevOrigin, ViteOrigin])
  {
    assert [s] + [DevOrigin, ViteOrigin] == [s, DevOrigin, ViteOrigin];
  }

  lemma ViteOriginPlain()
    ensures forall i :: 0 <= i < |ViteOrigin| ==> !Text.IsJsSpace(ViteOrigin[i])
    ensures ',' !in ViteOrigin
  {
  }

  /** The only 's' of the Vite origin is the one in "localhost". */
  lemma ViteOriginOneS()
    ensures forall j :: 0 <= j < |ViteOrigin| && ViteOrigin[j] == 's' ==> j == 14
  {
    assert ViteOrigin == ['h','t','t','p',':','/','/','l','o','c','a','l','h','o','s','t',':','5','1','7','3'];
  }

  lemma ViteOriginNotHttps()
    ensures !Text.Contains(ViteOrigin, "https://")
  {
    forall i | 0 <= i <= |ViteOrigin| ensures !("https://" <= ViteOrigin[i..]) {
      NoHttpsAt(i);
    }
  }

  lemma NoHttpsAt(i: int)
    requires 0 <= i <= |ViteOrigin|
    ensures !("https://" <= ViteOrigin[i..])
  {
    ViteOriginOneS();
    if i + 8 <= |ViteOrigin| {
      if i == 10 {
        assert ViteOrigin[i..][5] != "https://"[5];
      } else {
        assert ViteOrigin[i..][4] != "https://"[4];
      }
    }
  }

  /** `DISABLE_GLOBAL_SETTINGS === 'true'`. */
  predicate DisableGlobalSettings(env: Option<string>) {
    env == Some("true")
  }

  /** Only the exact text 'true' disables global settings. */
  lemma DisableGlobalSettingsExact(env: Option<string>)
    ensures DisableGlobalSettings(env) <==> env.Some? && env.value == "true"
    ensures !DisableGlobalSettings(Some("TRUE")) && !DisableGlobalSettings(Some("1"))
    ensures !DisableGlobalSettings(Some(" true")) && !DisableGlobalSettings(None)
  {
  }
}
