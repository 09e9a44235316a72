// What the validation gate lets through, field by field: from valid settings, which
// one-field updates are saved, with the bounds and words of each field written out.
module SettingsGate {
  import opened Options
  import opened Settings
  import opened SettingsUpdate

  lemma OneKeyBody(k: Key, v: Json)
    ensures BodyOk(map[k := v]) <==> KeyOk(k, v)
  {
    if BodyOk(map[k := v]) { assert k in map[k := v] && map[k := v][k] == v; }
  }

  // A body with one key saves the record with that key set, if it is valid.
  lemma OneKey(s: Record, p: Parsers, k: Key, v: Json)
    requires Complete(s)
    ensures KeyOk(k, v) ==> Complete(SetKey(s, k, v))
    ensures AfterUpdate(s, map[k := v], p) == if KeyOk(k, v) && Valid(SetKey(s, k, v), p) then SetKey(s, k, v) else s
  {
    OneKeyBody(k, v);
    if KeyOk(k, v) {
      assert map[][k := v] == map[k := v];
      MergedEmpty(s);
      MergedOne(s, map[], k, v);
      MergedComplete(s, map[k := v]);
    }
  }

  lemma RangesAfter(nums: map<NumField, int>, f: NumField, i: int)
    requires (forall g: NumField :: g in nums) && NumberRanges(nums)
    ensures NumberRanges(nums[f := i]) <==>
            (match f
             case TokenDuration => 0 <= i <= 8760
             case EmailSmtpPort => 0 <= i <= 65535
             case MaxParticipantsLimit => 0 <= i <= 100_000
             case MaxRoomsPerUser => 0 <= i <= 100_000
             case CorsMaxAge => 0 <= i <= 86_400
             case ChatUploadMaxBytes => 0 <= i
             case ChatUploadMaxDimension => 0 <= i
             case ChatUploadInlineMax => 0 <= i
             case MaxUploadBytesPerUser => 0 <= i
             case GlobalDiskThresholdBytes => 0 <= i
             case ChatMaxMessageCount => 0 <= i
             case ChatMessageTTLHours => 0 <= i
             case _ => true)
  {
  }

  // Which numbers are saved.
  lemma {:induction false} NumberGate(s: Record, p: Parsers, f: NumField, i: int)
    requires Complete(s) && Valid(s, p) && InInt64(i)
    ensures AfterUpdate(s, map[Num(f) := JInt(i)], p) ==
            if (match f
                case TokenDuration => 0 <= i <= 8760
                case EmailSmtpPort => 0 <= i <= 65535
                case MaxParticipantsLimit => 0 <= i <= 100_000
                case MaxRoomsPerUser => 0 <= i <= 100_000
                case CorsMaxAge => 0 <= i <= 86_400
                case WebxdcMaxArchiveMB => 0 <= i <= 512
                case WebxdcMaxUncompressedMB => 0 <= i <= 1024
                case WebxdcMaxSingleFileMB => 0 <= i <= 256
                case WebxdcMaxEntries => 0 <= i <= 10_000
                case RecordingMaxDurationMins => true
                case RecordingMaxFileSizeMB => true
                case _ => 0 <= i)
            then s.(nums := s.nums[f := i]) else s
  {
    OneKey(s, p, Num(f), JInt(i));
    NumberSaved(s, p, f, i);
    RangesAfter(s.nums, f, i);
    if KeyOk(Num(f), JInt(i)) {
      assert SetKey(s, Num(f), JInt(i)) == s.(nums := s.nums[f := i]);
    }
  }

  lemma NumberSaved(s: Record, p: Parsers, f: NumField, i: int)
    requires Complete(s) && Valid(s, p) && InInt64(i)
    ensures Complete(s.(nums := s.nums[f := i]))
    ensures Valid(s.(nums := s.nums[f := i]), p) <==> NumberRanges(s.nums[f := i])
    ensures NumberRanges(s.nums)
  {
    var t := s.(nums := s.nums[f := i]);
    assert TextFormats(t.texts, p) && CrossFields(t);
  }

  // ---- texts ----

  predicate IsUrl(p: Parsers, x: string, schemes: set<string>) {
    p.parseUrl(x).Some? && p.parseUrl(x).value.scheme in schemes && p.parseUrl(x).value.host != ""
  }

  predicate IsColor(x: string) {
    |x| == 7 && x[0] == '#' && forall i :: 1 <= i < 7 ==> x[i] in "0123456789abcdefABCDEF"
  }

  lemma ColorWrittenOut(x: string)
    ensures ValidHexColor(x) <==> IsColor(x)
  {
    if |x| == 7 {
      assert forall i :: 1 <= i < 7 ==> x[1..][i - 1] == x[i];
      forall i | 1 <= i < 7 ensures IsHexDigit(x[i]) <==> x[i] in "0123456789abcdefABCDEF" { HexDigitWrittenOut(x[i]); }
      if ValidHexColor(x) {
        forall i | 1 <= i < 7 ensures x[i] in "0123456789abcdefABCDEF" { assert x[i] in x[1..]; }
      }
    }
  }

  lemma HexDigitWrittenOut(c: char)
    ensures IsHexDigit(c) <==> c in "0123456789abcdefABCDEF"
  {
    var all := "0123456789abcdefABCDEF";
    if IsHexDigit(c) {
      var i := if IsDigit(c) then c as int - 48 else if 'a' <= c <= 'f' then c as int - 87 else c as int - 49;
      assert all[i] == c;
    }
  }

  lemma UrlWrittenOut(p: Parsers, x: string)
    ensures AbsoluteUrl(p, x, true) <==> IsUrl(p, x, {"http", "https", "ws", "wss"})
    ensures AbsoluteUrl(p, x, false) <==> IsUrl(p, x, {"http", "https"})
  {
  }

  // The formats each text must have, by its own words.
  predicate TextWanted(p: Parsers, f: TextField, x: string) {
    match f
    case ChatUploadBackend => x in {"", "disk", "inline", "s3"}
    case LogLevel => x in {"", "debug", "info", "warn", "error", "trace"}
    case ServerPort => x == "" || ValidPort(x)
    case ServerEmail => x == "" || p.validEmail(x)
    case EmailSupportEmail => x == "" || p.validEmail(x)
    case EmailHeaderBg => x == "" || IsColor(x)
    case EmailButtonBg => x == "" || IsColor(x)
    case EmailInstanceUrl => x == "" || IsUrl(p, x, {"http", "https"})
    case FrontendUrl => x == "" || IsUrl(p, x, {"http", "https", "ws", "wss"})
    case LivekitHost => x == "" || IsUrl(p, x, {"http", "https", "ws", "wss"})
    case GoogleRedirectUrl => x == "" || IsUrl(p, x, {"http", "https", "ws", "wss"})
    case GithubRedirectUrl => x == "" || IsUrl(p, x, {"http", "https", "ws", "wss"})
    case TwitterRedirectUrl => x == "" || IsUrl(p, x, {"http", "https", "ws", "wss"})
    case ChatUploadS3Endpoint => x == "" || IsUrl(p, x, {"http", "https", "ws", "wss"})
    case ChatUploadS3PublicUrl => x == "" || IsUrl(p, x, {"http", "https", "ws", "wss"})
    case _ => true
  }

  lemma FormatsWanted(texts: map<TextField, string>, p: Parsers, f: TextField)
    requires (forall g: TextField :: g in texts) && TextFormats(texts, p)
    ensures TextWanted(p, f, texts[f])
  {
    UrlWrittenOut(p, texts[f]);
    ColorWrittenOut(texts[f]);
  }

  const URL_FIELDS: set<TextField> :=
    {FrontendUrl, LivekitHost, GoogleRedirectUrl, GithubRedirectUrl, TwitterRedirectUrl, ChatUploadS3Endpoint, ChatUploadS3PublicUrl}

  lemma UrlsFormats(texts: map<TextField, string>, p: Parsers)
    requires (forall g: TextField :: g in texts) && forall g: TextField :: TextWanted(p, g, texts[g])
    ensures forall f :: f in URL_FIELDS ==> texts[f] == "" || AbsoluteUrl(p, texts[f], true)
  {
    forall f | f in URL_FIELDS ensures texts[f] == "" || AbsoluteUrl(p, texts[f], true) {
      assert TextWanted(p, f, texts[f]);
      UrlWrittenOut(p, texts[f]);
    }
  }

  lemma WantedFormats(texts: map<TextField, string>, p: Parsers)
    requires (forall g: TextField :: g in texts) && forall g: TextField :: TextWanted(p, g, texts[g])
    ensures TextFormats(texts, p)
  {
    UrlsFormats(texts, p);
    WantedWords(texts, p);
    WantedLooks(texts, p);
  }

  lemma WantedWords(texts: map<TextField, string>, p: Parsers)
    requires (forall g: TextField :: g in texts) && forall g: TextField :: TextWanted(p, g, texts[g])
    ensures var b, l := texts[ChatUploadBackend], texts[LogLevel];
            (b == "" || b == "disk" || b == "inline" || b == "s3") &&
            (l == "" || l == "debug" || l == "info" || l == "warn" || l == "error" || l == "trace") &&
            (texts[ServerPort] != "" ==> ValidPort(texts[ServerPort])) &&
            (texts[ServerEmail] != "" ==> p.validEmail(texts[ServerEmail])) &&
            (texts[EmailSupportEmail] != "" ==> p.validEmail(texts[EmailSupportEmail]))
  {
    assert TextWanted(p, ChatUploadBackend, texts[ChatUploadBackend]) && TextWanted(p, LogLevel, texts[LogLevel]);
    assert TextWanted(p, ServerPort, texts[ServerPort]) && TextWanted(p, ServerEmail, texts[ServerEmail]);
    assert TextWanted(p, EmailSupportEmail, texts[EmailSupportEmail]);
  }

  lemma WantedLooks(texts: map<TextField, string>, p: Parsers)
    requires (forall g: TextField :: g in texts) && forall g: TextField :: TextWanted(p, g, texts[g])
    ensures (texts[EmailHeaderBg] != "" ==> ValidHexColor(texts[EmailHeaderBg])) &&
            (texts[EmailButtonBg] != "" ==> ValidHexColor(texts[EmailButtonBg])) &&
            (texts[EmailInstanceUrl] != "" ==> AbsoluteUrl(p, texts[EmailInstanceUrl], false))
  {
    assert TextWanted(p, EmailHeaderBg, texts[EmailHeaderBg]) && TextWanted(p, EmailButtonBg, texts[EmailButtonBg]);
    assert TextWanted(p, EmailInstanceUrl, texts[EmailInstanceUrl]);
    ColorWrittenOut(texts[EmailHeaderBg]);
    ColorWrittenOut(texts[EmailButtonBg]);
    UrlWrittenOut(p, texts[EmailInstanceUrl]);
  }

  lemma {:induction false} FormatsIff(texts: map<TextField, string>, p: Parsers)
    requires forall f: TextField :: f in texts
    ensures TextFormats(texts, p) <==> forall f: TextField :: TextWanted(p, f, texts[f])
  {
    if TextFormats(texts, p) {
      forall f: TextField ensures TextWanted(p, f, texts[f]) { FormatsWanted(texts, p, f); }
    }
    if forall f: TextField :: TextWanted(p, f, texts[f]) { WantedFormats(texts, p); }
  }

  lemma FormatsAfter(texts: map<TextField, string>, p: Parsers, f: TextField, x: string)
    requires (forall g: TextField :: g in texts) && TextFormats(texts, p)
    ensures TextFormats(texts[f := x], p) <==> TextWanted(p, f, x)
  {
    FormatsIff(texts, p);
    FormatsIff(texts[f := x], p);
    if TextFormats(texts[f := x], p) { assert TextWanted(p, f, texts[f := x][f]); }
  }

  // ---- fields that need each other ----

  // What the other settings require of a text: an allowed-origins list when
  // credentials are on, certificate and key for TLS without ACME, an API key for an
  // external LiveKit server, an e-mail address for ACME.
  predicate TextNeeded(s: Record, f: TextField, x: string)
    requires Complete(s)
  {
    (f == CorsAllowedOrigins && s.flags[CorsAllowCredentials] ==> x != "" && !HasWildcardOrigin(x)) &&
    ((f == ServerCertFile || f == ServerKeyFile) && s.flags[ServerEnableTls] && !s.flags[ServerUseAcme] ==> x != "") &&
    (f == LivekitApiKey && s.flags[LivekitExternal] ==> x != "") &&
    (f == ServerEmail && s.flags[ServerUseAcme] ==> x != "")
  }

  lemma TextUpsets(s: Record, f: TextField, x: string)
    requires Complete(s) && CrossFields(s) && CrossFields(s.(texts := s.texts[f := x]))
    ensures TextNeeded(s, f, x)
  {
  }

  lemma TextFits(s: Record, f: TextField, x: string)
    requires Complete(s) && CrossFields(s) && TextNeeded(s, f, x)
    ensures CrossFields(s.(texts := s.texts[f := x]))
  {
  }

  lemma TextCross(s: Record, f: TextField, x: string)
    requires Complete(s) && CrossFields(s)
    ensures CrossFields(s.(texts := s.texts[f := x])) <==> TextNeeded(s, f, x)
  {
    if TextNeeded(s, f, x) { TextFits(s, f, x); } else if CrossFields(s.(texts := s.texts[f := x])) { TextUpsets(s, f, x); }
  }

  lemma TextSaved(s: Record, p: Parsers, f: TextField, y: string)
    requires Complete(s) && Valid(s, p)
    ensures Complete(s.(texts := s.texts[f := y]))
    ensures Valid(s.(texts := s.texts[f := y]), p) <==> TextWanted(p, f, y) && TextNeeded(s, f, y)
  {
    var t := s.(texts := s.texts[f := y]);
    FormatsAfter(s.texts, p, f, y);
    TextCross(s, f, y);
    assert NumberRanges(t.nums);
    assert Valid(t, p) <==> TextFormats(t.texts, p) && CrossFields(t);
  }

  // Which texts are saved; the two webxdc ones are stored trimmed.
  lemma {:induction false} TextGate(s: Record, p: Parsers, f: TextField, x: string)
    requires Complete(s) && Valid(s, p)
    ensures var y := if f == WebxdcGalleryRemoteCatalogUrl || f == WebxdcGallerySource then Trim(x) else x;
            AfterUpdate(s, map[Text(f) := JString(x)], p) ==
            if (f == WebxdcGallerySource ==> y in {"", "local", "remote", "both", "semi-remote"}) && TextWanted(p, f, y) && TextNeeded(s, f, y)
            then s.(texts := s.texts[f := y]) else s
  {
    var y := TextValue(f, JString(x));
    OneKey(s, p, Text(f), JString(x));
    TextSaved(s, p, f, y);
  }

  // Which secrets are saved; one that reads as the mask keeps what is stored.
  lemma {:induction false} SecretGate(s: Record, p: Parsers, f: SecretField, x: string)
    requires Complete(s) && Valid(s, p)
    ensures AfterUpdate(s, map[Secret(f) := JString(x)], p) ==
            if Trim(x) != MASK &&
               (f == JwtSecret ==> x == "" || ByteLen(x) >= 32) && (f == EmailPassword ==> x == "" || ByteLen(x) >= 4) &&
               (f == LivekitApiSecret && s.flags[LivekitExternal] ==> x != "")
            then s.(secrets := s.secrets[f := x]) else s
  {
    OneKey(s, p, Secret(f), JString(x));
    var y := if Trim(x) == MASK then s.secrets[f] else x;
    assert SetKey(s, Secret(f), JString(x)) == s.(secrets := s.secrets[f := y]);
    SecretCross(s, p, f, y);
    if Trim(x) == MASK { assert s.secrets[f := y] == s.secrets; }
  }

  lemma SecretCross(s: Record, p: Parsers, f: SecretField, y: string)
    requires Complete(s) && Valid(s, p)
    ensures Valid(s.(secrets := s.secrets[f := y]), p) <==>
            (f == JwtSecret ==> y == "" || ByteLen(y) >= 32) && (f == EmailPassword ==> y == "" || ByteLen(y) >= 4) &&
            (f == LivekitApiSecret && s.flags[LivekitExternal] ==> y != "")
  {
  }

  // Which flags are saved.
  lemma {:induction false} FlagGate(s: Record, p: Parsers, f: FlagField, b: bool)
    requires Complete(s) && Valid(s, p)
    ensures AfterUpdate(s, map[Flag(f) := JBool(b)], p) ==
            if (match f
                case CorsAllowCredentials => b ==> s.texts[CorsAllowedOrigins] != "" && !HasWildcardOrigin(s.texts[CorsAllowedOrigins])
                case ServerEnableTls =>
                  if b then s.flags[ServerUseAcme] || (s.texts[ServerCertFile] != "" && s.texts[ServerKeyFile] != "")
                  else !s.flags[ServerUseAcme]
                case ServerUseAcme =>
                  if b then s.flags[ServerEnableTls] && s.texts[ServerEmail] != ""
                  else !s.flags[ServerEnableTls] || (s.texts[ServerCertFile] != "" && s.texts[ServerKeyFile] != "")
                case LivekitExternal => b ==> s.texts[LivekitApiKey] != "" && s.secrets[LivekitApiSecret] != ""
                case _ => true)
            then s.(flags := s.flags[f := b]) else s
  {
    OneKey(s, p, Flag(f), JBool(b));
    assert SetKey(s, Flag(f), JBool(b)) == s.(flags := s.flags[f := b]);
    FlagCross(s, p, f, b);
  }

  lemma FlagCross(s: Record, p: Parsers, f: FlagField, b: bool)
    requires Complete(s) && Valid(s, p)
    ensures Valid(s.(flags := s.flags[f := b]), p) <==>
            (match f
             case CorsAllowCredentials => b ==> s.texts[CorsAllowedOrigins] != "" && !HasWildcardOrigin(s.texts[CorsAllowedOrigins])
             case ServerEnableTls =>
               if b then s.flags[ServerUseAcme] || (s.texts[ServerCertFile] != "" && s.texts[ServerKeyFile] != "")
               else !s.flags[ServerUseAcme]
             case ServerUseAcme =>
               if b then s.flags[ServerEnableTls] && s.texts[ServerEmail] != ""
               else !s.flags[ServerEnableTls] || (s.texts[ServerCertFile] != "" && s.texts[ServerKeyFile] != "")
             case LivekitExternal => b ==> s.texts[LivekitApiKey] != "" && s.secrets[LivekitApiSecret] != ""
             case _ => true)
  {
  }

  // ---- ports, lengths, origins ----

  function Decimal(n: nat): string {
    if n < 10 then [(n + '0' as int) as char] else Decimal(n / 10) + [(n % 10 + '0' as int) as char]
  }

  lemma {:induction false} DecimalValue(n: nat)
    ensures Decimal(n) != "" && (forall c :: c in Decimal(n) ==> IsDigit(c)) && DigitsValue(Decimal(n)) == n
  {
    if n >= 10 {
      DecimalValue(n / 10);
      var d := Decimal(n);
      assert d[..|d| - 1] == Decimal(n / 10);
    } else {
      assert Decimal(n)[..0] == "";
    }
  }

  // A port is a decimal from 1 to 65535, with leading zeros or a plus sign if it likes.
  lemma {:induction false} PortNumbers(n: nat)
    ensures ValidPort(Decimal(n)) <==> 1 <= n <= 65535
    ensures ValidPort("+" + Decimal(n)) <==> 1 <= n <= 65535
    ensures ValidPort("0" + Decimal(n)) <==> 1 <= n <= 65535
  {
    DecimalValue(n);
    assert Decimal(n)[0] in Decimal(n);
    assert ("+" + Decimal(n))[1..] == Decimal(n);
    LeadingZero(Decimal(n));
  }

  lemma {:induction false} LeadingZero(s: string)
    requires forall c :: c in s ==> IsDigit(c)
    ensures (forall c :: c in "0" + s ==> IsDigit(c)) && DigitsValue("0" + s) == DigitsValue(s)
  {
    if s == "" {
      assert "0" + s == "0" && "0"[..0] == "";
    } else {
      assert ("0" + s)[..|s|] == "0" + s[..|s| - 1];
      LeadingZero(s[..|s| - 1]);
    }
  }

  lemma PortNeedsDigits(x: string, i: nat)
    requires i < |x| && !('0' <= x[i] <= '9') && !(i == 0 && x[0] == '+')
    ensures !ValidPort(x)
  {
    var digits := if x[0] == '+' then x[1..] else x;
    var k := if x[0] == '+' then i - 1 else i;
    assert digits[k] == x[i] && digits[k] in digits;
    assert !IsDigit(digits[k]);
  }

  // Lengths count bytes: one for an ASCII character, at most four for any.
  lemma {:induction false} ByteLenBounds(s: string)
    ensures |s| <= ByteLen(s) <= 4 * |s|
    ensures (forall c :: c in s ==> c as int < 0x80) <==> ByteLen(s) == |s|
  {
    if s != "" {
      ByteLenBounds(s[1..]);
      assert s[0] in s && forall c :: c in s[1..] ==> c in s;
      assert s == [s[0]] + s[1..];
      assert forall c :: c in s ==> c == s[0] || c in s[1..];
    }
  }

  function CountFrom(s: string, bound: nat): nat {
    if s == "" then 0 else (if s[0] as int >= bound then 1 else 0) + CountFrom(s[1..], bound)
  }

  // One byte for each character, and one more from U+0080, U+0800 and U+10000 on.
  lemma {:induction false} ByteLenCounts(s: string)
    ensures ByteLen(s) == |s| + CountFrom(s, 0x80) + CountFrom(s, 0x800) + CountFrom(s, 0x10000)
  {
    if s != "" { ByteLenCounts(s[1..]); }
  }

  // Origins are judged one by one, between the commas.
  predicate Between(s: string, i: int, j: int) {
    0 <= i <= j <= |s| && (i == 0 || s[i - 1] == ',') && (j == |s| || s[j] == ',') && ',' !in s[i..j]
  }

  lemma WildcardBetween(s: string)
    ensures HasWildcardOrigin(s) <==> exists i, j :: Between(s, i, j) && Trim(s[i..j]) == "*"
  {
    if HasWildcardOrigin(s) {
      var i, j :| 0 <= i <= j <= |s| && (i == 0 || s[i - 1] == ',') && (j == |s| || s[j] == ',') && ',' !in s[i..j] && Trim(s[i..j]) == "*";
      assert Between(s, i, j);
    }
  }

  lemma {:induction false} OneOrigin(o: string)
    requires ',' !in o
    ensures HasWildcardOrigin(o) <==> Trim(o) == "*"
  {
    assert o[0..|o|] == o;
    if HasWildcardOrigin(o) {
      var i, j :| 0 <= i <= j <= |o| && (i == 0 || o[i - 1] == ',') && (j == |o| || o[j] == ',') && ',' !in o[i..j] && Trim(o[i..j]) == "*";
      assert i == 0 && j == |o|;
    }
  }

  lemma BetweenRest(o: string, rest: string, i: int, j: int)
    requires Between(rest, i, j)
    ensures var all, k := o + "," + rest, |o| + 1; Between(all, k + i, k + j) && all[k + i..k + j] == rest[i..j]
  {
    var all, k := o + "," + rest, |o| + 1;
    assert all[k + i..k + j] == rest[i..j];
  }

  lemma BetweenFirst(o: string, rest: string)
    requires ',' !in o
    ensures Between(o + "," + rest, 0, |o|) && (o + "," + rest)[0..|o|] == o
  {
    assert (o + "," + rest)[0..|o|] == o;
  }

  lemma CommaInside(s: string, i: int, j: int, c: int)
    requires 0 <= i <= c < j <= |s| && s[c] == ','
    ensures !Between(s, i, j)
  {
    assert s[i..j][c - i] == ',';
  }

  // A segment of the whole is the first origin, or lies in the rest.
  lemma WhereBetween(o: string, rest: string, i: int, j: int)
    requires ',' !in o && Between(o + "," + rest, i, j)
    ensures (i == 0 && j == |o|) || i >= |o| + 1
  {
    var all := o + "," + rest;
    assert all[|o|] == ',';
    assert forall x :: 0 <= x < |o| ==> all[x] == o[x] && o[x] in o;
    if i <= |o| < j { CommaInside(all, i, j, |o|); }
  }

  lemma BetweenAll(o: string, rest: string, i: int, j: int)
    requires ',' !in o && Between(o + "," + rest, i, j)
    ensures var all, k := o + "," + rest, |o| + 1;
            (i == 0 && j == |o| && all[i..j] == o) || (i >= k && Between(rest, i - k, j - k) && all[i..j] == rest[i - k..j - k])
  {
    var all, k := o + "," + rest, |o| + 1;
    WhereBetween(o, rest, i, j);
    if i == 0 {
      BetweenFirst(o, rest);
    } else {
      assert rest[i - k..j - k] == all[i..j];
    }
  }

  lemma {:induction false} FirstOrigin(o: string, rest: string)
    requires ',' !in o
    ensures HasWildcardOrigin(o + "," + rest) <==> Trim(o) == "*" || HasWildcardOrigin(rest)
  {
    var all := o + "," + rest;
    WildcardBetween(all);
    WildcardBetween(rest);
    BetweenFirst(o, rest);
    if i, j :| Between(rest, i, j) && Trim(rest[i..j]) == "*" { BetweenRest(o, rest, i, j); }
    if i, j :| Between(all, i, j) && Trim(all[i..j]) == "*" { BetweenAll(o, rest, i, j); }
  }
}
