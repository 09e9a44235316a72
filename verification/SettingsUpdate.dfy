// PUT /api/admin/settings: merge into a fresh copy, validate, save.
module SettingsUpdate {
  import opened Options
  import opened Settings

  datatype Url = Url(scheme: string, host: string)

  // net/url.Parse and net/mail.ParseAddress.
  datatype Parsers = Parsers(parseUrl: string -> Option<Url>, validEmail: string -> bool)

  // Go's len: bytes of the UTF-8 encoding.
  function ByteLen(s: string): nat {
    if s == "" then 0
    else
      var u := s[0] as int;
      (if u < 0x80 then 1 else if u < 0x800 then 2 else if u < 0x10000 then 3 else 4) + ByteLen(s[1..])
  }

  predicate IsDigit(c: char) { '0' <= c <= '9' }

  function DigitsValue(s: string): nat
    requires forall c :: c in s ==> IsDigit(c)
  {
    if s == "" then 0
    else
      assert IsDigit(s[|s| - 1]);
      DigitsValue(s[..|s| - 1]) * 10 + (s[|s| - 1] as int - '0' as int)
  }

  // strconv.Atoi, then the range check of a port; Atoi takes a leading '+'.
  predicate ValidPort(s: string) {
    var digits := if s != "" && s[0] == '+' then s[1..] else s;
    digits != "" && (forall c :: c in digits ==> IsDigit(c)) && 1 <= DigitsValue(digits) <= 65535
  }

  predicate IsHexDigit(c: char) { IsDigit(c) || 'a' <= c <= 'f' || 'A' <= c <= 'F' }

  predicate ValidHexColor(s: string) {
    |s| == 7 && s[0] == '#' && forall c :: c in s[1..] ==> IsHexDigit(c)
  }

  predicate AbsoluteUrl(p: Parsers, s: string, wsAllowed: bool) {
    match p.parseUrl(s)
    case None => false
    case Some(u) =>
      u.scheme != "" && u.host != "" &&
      (u.scheme == "http" || u.scheme == "https" || (wsAllowed && (u.scheme == "ws" || u.scheme == "wss")))
  }

  // Some comma-separated origin is "*" after trimming.
  predicate HasWildcardOrigin(s: string) {
    exists i, j | 0 <= i <= j <= |s| ::
      (i == 0 || s[i - 1] == ',') && (j == |s| || s[j] == ',') && ',' !in s[i..j] && Trim(s[i..j]) == "*"
  }

  predicate NumberRanges(n: map<NumField, int>)
    requires forall f: NumField :: f in n
  {
    (n[TokenDuration] == 0 || 1 <= n[TokenDuration] <= 8760) &&
    0 <= n[ChatUploadMaxBytes] && 0 <= n[ChatUploadMaxDimension] && 0 <= n[ChatUploadInlineMax] &&
    0 <= n[MaxParticipantsLimit] <= 100000 && 0 <= n[MaxRoomsPerUser] <= 100000 &&
    0 <= n[MaxUploadBytesPerUser] && 0 <= n[GlobalDiskThresholdBytes] &&
    0 <= n[ChatMaxMessageCount] && 0 <= n[ChatMessageTTLHours] &&
    0 <= n[CorsMaxAge] <= 86400 && (n[EmailSmtpPort] == 0 || 1 <= n[EmailSmtpPort] <= 65535)
  }

  predicate TextFormats(t: map<TextField, string>, p: Parsers)
    requires forall f: TextField :: f in t
  {
    var b, l := t[ChatUploadBackend], t[LogLevel];
    (b == "" || b == "disk" || b == "inline" || b == "s3") &&
    (l == "" || l == "debug" || l == "info" || l == "warn" || l == "error" || l == "trace") &&
    (t[ServerPort] != "" ==> ValidPort(t[ServerPort])) &&
    (forall f :: f in {FrontendUrl, LivekitHost, GoogleRedirectUrl, GithubRedirectUrl, TwitterRedirectUrl, ChatUploadS3Endpoint, ChatUploadS3PublicUrl} ==>
       t[f] == "" || AbsoluteUrl(p, t[f], true)) &&
    (t[ServerEmail] != "" ==> p.validEmail(t[ServerEmail])) &&
    (t[EmailHeaderBg] != "" ==> ValidHexColor(t[EmailHeaderBg])) && (t[EmailButtonBg] != "" ==> ValidHexColor(t[EmailButtonBg])) &&
    (t[EmailInstanceUrl] != "" ==> AbsoluteUrl(p, t[EmailInstanceUrl], false)) &&
    (t[EmailSupportEmail] != "" ==> p.validEmail(t[EmailSupportEmail]))
  }

  predicate CrossFields(s: Record)
    requires (forall f: SecretField :: f in s.secrets) && (forall f: TextField :: f in s.texts) && (forall f: FlagField :: f in s.flags)
  {
    (s.secrets[JwtSecret] != "" ==> ByteLen(s.secrets[JwtSecret]) >= 32) &&
    (s.secrets[EmailPassword] != "" ==> ByteLen(s.secrets[EmailPassword]) >= 4) &&
    (s.flags[CorsAllowCredentials] ==> s.texts[CorsAllowedOrigins] != "" && !HasWildcardOrigin(s.texts[CorsAllowedOrigins])) &&
    (s.flags[ServerEnableTls] && !s.flags[ServerUseAcme] ==> s.texts[ServerCertFile] != "" && s.texts[ServerKeyFile] != "") &&
    (s.flags[LivekitExternal] ==> s.texts[LivekitApiKey] != "" && s.secrets[LivekitApiSecret] != "") &&
    (s.flags[ServerUseAcme] ==> s.flags[ServerEnableTls] && s.texts[ServerEmail] != "")
  }

  // validateSettings returns nil.
  predicate Valid(s: Record, p: Parsers)
    requires Complete(s)
  {
    NumberRanges(s.nums) && TextFormats(s.texts, p) && CrossFields(s)
  }

  // What one request leaves in the database.
  ghost function AfterUpdate(s: Record, raw: map<Key, Json>, p: Parsers): (r: Record)
    requires Complete(s)
    ensures Complete(r)
  {
    if !BodyOk(raw) then s
    else
      MergedComplete(s, raw);
      if Valid(Merged(s, raw), p) then Merged(s, raw) else s
  }

  ghost function AfterUpdates(s: Record, bodies: seq<map<Key, Json>>, p: Parsers): (r: Record)
    requires Complete(s)
    ensures Complete(r)
  {
    if bodies == [] then s else AfterUpdate(AfterUpdates(s, bodies[..|bodies| - 1], p), bodies[|bodies| - 1], p)
  }

  // Over any run of updates the saved settings stay valid, and a secret changes
  // only through a body that names it.
  lemma {:induction false} SavedStaysValid(s: Record, bodies: seq<map<Key, Json>>, p: Parsers)
    requires Complete(s) && Valid(s, p)
    ensures Valid(AfterUpdates(s, bodies, p), p)
    ensures forall f :: AfterUpdates(s, bodies, p).secrets[f] == s.secrets[f] || exists i :: 0 <= i < |bodies| && Secret(f) in bodies[i]
  {
    if bodies != [] {
      var last := bodies[|bodies| - 1];
      SavedStaysValid(s, bodies[..|bodies| - 1], p);
      forall f: SecretField | AfterUpdates(s, bodies, p).secrets[f] != s.secrets[f]
        ensures exists i :: 0 <= i < |bodies| && Secret(f) in bodies[i]
      {
        if Secret(f) in last {
          assert Secret(f) in bodies[|bodies| - 1];
        } else {
          var i :| 0 <= i < |bodies| - 1 && Secret(f) in bodies[..|bodies| - 1][i];
          assert Secret(f) in bodies[i];
        }
      }
    }
  }

  // The settings struct a request edits.
  class SystemSettings {
    var secrets: map<SecretField, string>
    var texts: map<TextField, string>
    var flags: map<FlagField, bool>
    var nums: map<NumField, int>

    ghost function Contents(): Record reads this { Record(secrets, texts, flags, nums) }

    constructor (s: Record)
      ensures Contents() == s
    {
      secrets, texts, flags, nums := s.secrets, s.texts, s.flags, s.nums;
    }

    method SetField(k: Key, v: Json)
      requires KeyOk(k, v)
      modifies this
      ensures Contents() == SetKey(old(Contents()), k, v)
    {
      match k
      case Secret(f) => if f in secrets { secrets := secrets[f := SecretValue(secrets[f], v)]; }
      case Text(f) => texts := texts[f := TextValue(f, v)];
      case Flag(f) => flags := flags[f := AsFlag(v).value];
      case Num(f) => nums := nums[f := AsInt(v).value];
      case Unknown(_) =>
    }

    // The body is walked in no particular order and left at the first bad key,
    // with some of the other keys already applied.
    method ApplySettingsFields(raw: map<Key, Json>) returns (r: Result<(), Key>)
      requires Complete(Contents())
      modifies this
      ensures r.Ok? <==> BodyOk(raw)
      ensures r.Ok? ==> Contents() == Merged(old(Contents()), raw)
      ensures r.Err? ==> r.error in raw && !KeyOk(r.error, raw[r.error])
      ensures r.Err? ==> exists done :: done <= raw.Keys && BodyOk(Restrict(raw, done)) && Contents() == Merged(old(Contents()), Restrict(raw, done))
    {
      var todo := raw.Keys;
      ghost var done: set<Key> := {};
      RestrictNone(raw);
      MergedEmpty(Contents());
      while todo != {}
        invariant todo + done == raw.Keys && todo !! done
        invariant BodyOk(Restrict(raw, done)) && Contents() == Merged(old(Contents()), Restrict(raw, done))
        decreases |todo|
      {
        var k :| k in todo;
        if !KeyOk(k, raw[k]) { return Err(k); }
        ApplyOne(old(Contents()), raw, done, k);
        SetField(k, raw[k]);
        todo, done := todo - {k}, done + {k};
      }
      RestrictAll(raw, done);
      return Ok(());
    }
  }

  datatype UpdateError = BadField(k: Key) | InvalidSettings

  class AdminHandler {
    const parsers: Parsers
    var saved: Record

    constructor (parsers: Parsers, saved: Record)
      ensures this.parsers == parsers && this.saved == saved
    {
      this.parsers, this.saved := parsers, saved;
    }

    method UpdateSettings(raw: map<Key, Json>) returns (r: Result<(), UpdateError>)
      requires Complete(saved)
      modifies this
      ensures Complete(saved) && saved == AfterUpdate(old(saved), raw, parsers)
      ensures r.Ok? <==> BodyOk(raw) && Complete(Merged(old(saved), raw)) && Valid(Merged(old(saved), raw), parsers)
      ensures r.Err? ==> (r.error == InvalidSettings <==> BodyOk(raw))
    {
      var existing := new SystemSettings(saved);
      var applied := existing.ApplySettingsFields(raw);
      if applied.Err? { return Err(BadField(applied.error)); }
      MergedComplete(saved, raw);
      var merged := Record(existing.secrets, existing.texts, existing.flags, existing.nums);
      if !Valid(merged, parsers) { return Err(InvalidSettings); }
      saved := merged;
      return Ok(());
    }
  }
}
