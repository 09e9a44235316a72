// System settings: the partial JSON merge, the masking of secrets, and the
// validation gate. A settings record is one map per kind of field; the field
// names are the JSON keys of the source.
module Settings {
  import opened Options

  datatype SecretField =
    | GoogleClientSecret | GithubClientSecret | TwitterClientSecret | JwtSecret | SessionSecret
    | LivekitApiSecret | ChatUploadS3AccessKey | ChatUploadS3SecretKey | EmailPassword

  datatype TextField =
    | GoogleClientId | GoogleRedirectUrl | GithubClientId | GithubRedirectUrl | TwitterClientId | TwitterRedirectUrl
    | FrontendUrl | ServerPort | ServerHost | ServerDomain | ServerCertFile | ServerKeyFile | ServerEmail
    | LivekitHost | LivekitApiKey | CorsAllowedOrigins | CorsAllowedHeaders | CorsAllowedMethods
    | ChatUploadBackend | ChatUploadDiskDir | ChatUploadS3Endpoint | ChatUploadS3Bucket | ChatUploadS3Region
    | ChatUploadS3PublicUrl | LogLevel | ServerName
    | EmailInstanceName | EmailSupportEmail | EmailInstanceUrl | EmailHeaderBg | EmailButtonBg
    | EmailSubjectVerify | EmailSubjectWelcome | EmailSubjectReset | EmailSubjectChanged | EmailSubjectInvite
    | EmailPreheaderVerify | EmailPreheaderWelcome | EmailPreheaderReset | EmailPreheaderChanged | EmailPreheaderInvite
    | EmailSmtpHost | EmailUsername | EmailFromAddress | EmailFromName
    | WebxdcGalleryRemoteCatalogUrl | WebxdcGallerySource

  datatype FlagField =
    | RegistrationEnabled | TokenRegistrationOnly | PasskeysEnabled | ServerEnableTls | ServerUseAcme | BehindProxy
    | LivekitExternal | CorsAllowCredentials | GuestLoginEnabled | RecordingsEnabled
    | WebxdcGalleryEnabled | WebxdcGalleryAllowRemoteDownload | WebxdcGalleryInstanceCatalogEnabled
    | RnnoiseEnabled | KrispEnabled | EmailTlsSkipVerify | EmailSmtpsMode

  datatype NumField =
    | CorsMaxAge | TokenDuration | MaxParticipantsLimit | MaxRoomsPerUser | ChatMaxMessageCount | ChatMessageTTLHours
    | ChatUploadMaxDimension | RecordingMaxDurationMins | RecordingMaxFileSizeMB | EmailSmtpPort
    | WebxdcMaxArchiveMB | WebxdcMaxUncompressedMB | WebxdcMaxSingleFileMB | WebxdcMaxEntries
    | ChatUploadMaxBytes | ChatUploadInlineMax | MaxUploadBytesPerUser | GlobalDiskThresholdBytes

  // A key of the request body. Unknown keys are ignored by the merge.
  datatype Key = Secret(s: SecretField) | Text(t: TextField) | Flag(f: FlagField) | Num(n: NumField) | Unknown(name: string)

  datatype Json = JNull | JString(text: string) | JBool(b: bool) | JInt(i: int) | JFloat | JArray | JObject

  datatype Record = Record(
    secrets: map<SecretField, string>,
    texts: map<TextField, string>,
    flags: map<FlagField, bool>,
    nums: map<NumField, int>)

  // int and int64 are both 64 bits wide.
  predicate InInt64(i: int) { -0x8000_0000_0000_0000 <= i < 0x8000_0000_0000_0000 }

  ghost predicate Complete(s: Record) {
    (forall f: SecretField :: f in s.secrets) && (forall f: TextField :: f in s.texts) &&
    (forall f: FlagField :: f in s.flags) && (forall f: NumField :: f in s.nums && InInt64(s.nums[f]))
  }

  // ---- strings.TrimSpace ----

  predicate IsSpace(c: char) {
    var u := c as int;
    0x09 <= u <= 0x0d || u == 0x20 || u == 0x85 || u == 0xa0 || u == 0x1680 || 0x2000 <= u <= 0x200a ||
    u == 0x2028 || u == 0x2029 || u == 0x202f || u == 0x205f || u == 0x3000
  }

  function Trim(s: string): string {
    if s == "" then s
    else if IsSpace(s[0]) then Trim(s[1..])
    else if IsSpace(s[|s| - 1]) then Trim(s[..|s| - 1])
    else s
  }

  const MASK: string := "\U{2022}\U{2022}\U{2022}\U{2022}\U{2022}\U{2022}\U{2022}\U{2022}"

  // ---- one field of the merge ----

  // json.Unmarshal leaves the zero value for null and reports no error.
  function AsText(v: Json): Option<string> {
    match v case JNull => Some("") case JString(s) => Some(s) case _ => None
  }

  function AsFlag(v: Json): Option<bool> {
    match v case JNull => Some(false) case JBool(b) => Some(b) case _ => None
  }

  function AsInt(v: Json): Option<int> {
    match v case JNull => Some(0) case JInt(i) => if InInt64(i) then Some(i) else None case _ => None
  }

  predicate GallerySource(s: string) {
    s == "" || s == "local" || s == "remote" || s == "both" || s == "semi-remote"
  }

  predicate NumInBounds(f: NumField, i: int) {
    match f
    case WebxdcMaxArchiveMB => 0 <= i <= 512
    case WebxdcMaxUncompressedMB => 0 <= i <= 1024
    case WebxdcMaxSingleFileMB => 0 <= i <= 256
    case WebxdcMaxEntries => 0 <= i <= 10000
    case _ => true
  }

  predicate KeyOk(k: Key, v: Json) {
    match k
    case Secret(_) => AsText(v).Some?
    case Text(f) => AsText(v).Some? && (f == WebxdcGallerySource ==> GallerySource(Trim(AsText(v).value)))
    case Flag(_) => AsFlag(v).Some?
    case Num(f) => AsInt(v).Some? && NumInBounds(f, AsInt(v).value)
    case Unknown(_) => true
  }

  function SecretValue(prev: string, v: Json): string
    requires AsText(v).Some?
  {
    if Trim(AsText(v).value) == MASK then prev else AsText(v).value
  }

  function TextValue(f: TextField, v: Json): string
    requires AsText(v).Some?
  {
    if f == WebxdcGalleryRemoteCatalogUrl || f == WebxdcGallerySource then Trim(AsText(v).value) else AsText(v).value
  }

  function SetKey(s: Record, k: Key, v: Json): Record
    requires KeyOk(k, v)
  {
    match k
    case Secret(f) => if f in s.secrets then s.(secrets := s.secrets[f := SecretValue(s.secrets[f], v)]) else s
    case Text(f) => s.(texts := s.texts[f := TextValue(f, v)])
    case Flag(f) => s.(flags := s.flags[f := AsFlag(v).value])
    case Num(f) => s.(nums := s.nums[f := AsInt(v).value])
    case Unknown(_) => s
  }

  // ---- the merge, field by field ----

  predicate BodyOk(raw: map<Key, Json>) { forall k :: k in raw ==> KeyOk(k, raw[k]) }

  function SecretAfter(s: Record, raw: map<Key, Json>, f: SecretField): string
    requires BodyOk(raw) && f in s.secrets
  {
    if Secret(f) in raw then (assert KeyOk(Secret(f), raw[Secret(f)]); SecretValue(s.secrets[f], raw[Secret(f)])) else s.secrets[f]
  }

  function TextAfter(s: Record, raw: map<Key, Json>, f: TextField): string
    requires BodyOk(raw) && f in s.texts
  {
    if Text(f) in raw then (assert KeyOk(Text(f), raw[Text(f)]); TextValue(f, raw[Text(f)])) else s.texts[f]
  }

  function FlagAfter(s: Record, raw: map<Key, Json>, f: FlagField): bool
    requires BodyOk(raw) && f in s.flags
  {
    if Flag(f) in raw then (assert KeyOk(Flag(f), raw[Flag(f)]); AsFlag(raw[Flag(f)]).value) else s.flags[f]
  }

  function NumAfter(s: Record, raw: map<Key, Json>, f: NumField): int
    requires BodyOk(raw) && f in s.nums
  {
    if Num(f) in raw then (assert KeyOk(Num(f), raw[Num(f)]); AsInt(raw[Num(f)]).value) else s.nums[f]
  }

  function SecretsAfter(s: Record, raw: map<Key, Json>): map<SecretField, string>
    requires BodyOk(raw)
  {
    map f | f in s.secrets :: SecretAfter(s, raw, f)
  }

  function TextsAfter(s: Record, raw: map<Key, Json>): map<TextField, string>
    requires BodyOk(raw)
  {
    map f | f in s.texts :: TextAfter(s, raw, f)
  }

  function FlagsAfter(s: Record, raw: map<Key, Json>): map<FlagField, bool>
    requires BodyOk(raw)
  {
    map f | f in s.flags :: FlagAfter(s, raw, f)
  }

  function NumsAfter(s: Record, raw: map<Key, Json>): map<NumField, int>
    requires BodyOk(raw)
  {
    map f | f in s.nums :: NumAfter(s, raw, f)
  }

  // Every named field takes its new value, every other field keeps its own.
  function Merged(s: Record, raw: map<Key, Json>): Record
    requires BodyOk(raw)
  {
    Record(SecretsAfter(s, raw), TextsAfter(s, raw), FlagsAfter(s, raw), NumsAfter(s, raw))
  }

  lemma MergedEmpty(s: Record)
    ensures Merged(s, map[]) == s
  {
  }

  lemma MergedComplete(s: Record, raw: map<Key, Json>)
    requires Complete(s) && BodyOk(raw)
    ensures Complete(Merged(s, raw))
  {
    forall f: NumField ensures InInt64(NumAfter(s, raw, f)) {
      if Num(f) in raw { assert KeyOk(Num(f), raw[Num(f)]); }
    }
  }

  lemma BodyOkOne(raw: map<Key, Json>, k: Key, v: Json)
    requires BodyOk(raw) && KeyOk(k, v)
    ensures BodyOk(raw[k := v])
  {
    var raw' := raw[k := v];
    forall x | x in raw' ensures KeyOk(x, raw'[x]) {
      if x != k { assert KeyOk(x, raw[x]); }
    }
  }

  // How one more key changes each part of the merge.
  lemma SecretsOne(s: Record, raw: map<Key, Json>, k: Key, v: Json)
    requires Complete(s) && BodyOk(raw) && k !in raw && KeyOk(k, v) && BodyOk(raw[k := v])
    ensures SecretsAfter(s, raw[k := v]) ==
            if k.Secret? then SecretsAfter(s, raw)[k.s := SecretValue(s.secrets[k.s], v)] else SecretsAfter(s, raw)
  {
    forall f | f in s.secrets && Secret(f) != k ensures SecretAfter(s, raw[k := v], f) == SecretAfter(s, raw, f) {
      assert Secret(f) in raw[k := v] <==> Secret(f) in raw;
    }
    if k.Secret? { assert k.s in s.secrets; }
  }

  lemma TextsOne(s: Record, raw: map<Key, Json>, k: Key, v: Json)
    requires Complete(s) && BodyOk(raw) && k !in raw && KeyOk(k, v) && BodyOk(raw[k := v])
    ensures TextsAfter(s, raw[k := v]) == if k.Text? then TextsAfter(s, raw)[k.t := TextValue(k.t, v)] else TextsAfter(s, raw)
  {
    forall f | f in s.texts && Text(f) != k ensures TextAfter(s, raw[k := v], f) == TextAfter(s, raw, f) {
      assert Text(f) in raw[k := v] <==> Text(f) in raw;
    }
    if k.Text? { assert k.t in s.texts; }
  }

  lemma FlagsOne(s: Record, raw: map<Key, Json>, k: Key, v: Json)
    requires Complete(s) && BodyOk(raw) && k !in raw && KeyOk(k, v) && BodyOk(raw[k := v])
    ensures FlagsAfter(s, raw[k := v]) == if k.Flag? then FlagsAfter(s, raw)[k.f := AsFlag(v).value] else FlagsAfter(s, raw)
  {
    forall f | f in s.flags && Flag(f) != k ensures FlagAfter(s, raw[k := v], f) == FlagAfter(s, raw, f) {
      assert Flag(f) in raw[k := v] <==> Flag(f) in raw;
    }
    if k.Flag? { assert k.f in s.flags; }
  }

  lemma NumsOne(s: Record, raw: map<Key, Json>, k: Key, v: Json)
    requires Complete(s) && BodyOk(raw) && k !in raw && KeyOk(k, v) && BodyOk(raw[k := v])
    ensures NumsAfter(s, raw[k := v]) == if k.Num? then NumsAfter(s, raw)[k.n := AsInt(v).value] else NumsAfter(s, raw)
  {
    forall f | f in s.nums && Num(f) != k ensures NumAfter(s, raw[k := v], f) == NumAfter(s, raw, f) {
      assert Num(f) in raw[k := v] <==> Num(f) in raw;
    }
    if k.Num? { assert k.n in s.nums; }
  }

  lemma MergedOne(s: Record, raw: map<Key, Json>, k: Key, v: Json)
    requires Complete(s) && BodyOk(raw) && k !in raw && KeyOk(k, v) && BodyOk(raw[k := v])
    ensures SetKey(Merged(s, raw), k, v) == Merged(s, raw[k := v])
  {
    SecretsOne(s, raw, k, v);
    TextsOne(s, raw, k, v);
    FlagsOne(s, raw, k, v);
    NumsOne(s, raw, k, v);
    if k.Secret? { assert k.s in s.secrets && Merged(s, raw).secrets[k.s] == s.secrets[k.s]; }
  }

  // Applying the keys one at a time, in the given order, stopping at the first bad one.
  function ApplyInOrder(s: Record, raw: map<Key, Json>, order: seq<Key>): Result<Record, Key>
    requires forall k :: k in order ==> k in raw
    decreases |order|
  {
    if order == [] then Ok(s)
    else if !KeyOk(order[0], raw[order[0]]) then Err(order[0])
    else ApplyInOrder(SetKey(s, order[0], raw[order[0]]), raw, order[1..])
  }

  function Restrict(raw: map<Key, Json>, keys: set<Key>): map<Key, Json> {
    map k | k in raw && k in keys :: raw[k]
  }

  lemma RestrictNone(raw: map<Key, Json>)
    ensures Restrict(raw, {}) == map[]
  {
  }

  lemma RestrictAll(raw: map<Key, Json>, keys: set<Key>)
    requires keys == raw.Keys
    ensures Restrict(raw, keys) == raw
  {
  }

  // One more key of the body, whichever it is.
  lemma ApplyOne(s: Record, raw: map<Key, Json>, done: set<Key>, k: Key)
    requires Complete(s) && k in raw && k !in done && BodyOk(Restrict(raw, done)) && KeyOk(k, raw[k])
    ensures BodyOk(Restrict(raw, done + {k}))
    ensures Merged(s, Restrict(raw, done + {k})) == SetKey(Merged(s, Restrict(raw, done)), k, raw[k])
  {
    BodyOkOne(Restrict(raw, done), k, raw[k]);
    MergedOne(s, Restrict(raw, done), k, raw[k]);
    assert Restrict(raw, done + {k}) == Restrict(raw, done)[k := raw[k]];
  }

  predicate Distinct(order: seq<Key>) { forall i, j :: 0 <= i < j < |order| ==> order[i] != order[j] }

  function KeysOf(order: seq<Key>): set<Key> { set k | k in order }

  // Any order of any set of keys amounts to the merge of those keys.
  lemma {:induction false} OrderedIsMerged(s: Record, raw: map<Key, Json>, done: set<Key>, order: seq<Key>)
    requires Complete(s) && done <= raw.Keys && BodyOk(Restrict(raw, done))
    requires Distinct(order) && forall k :: k in order ==> k in raw && k !in done
    ensures var r := ApplyInOrder(Merged(s, Restrict(raw, done)), raw, order);
            (r.Ok? <==> BodyOk(Restrict(raw, done + KeysOf(order)))) &&
            (r.Ok? ==> r.value == Merged(s, Restrict(raw, done + KeysOf(order))))
    decreases |order|
  {
    if order == [] {
      assert done + KeysOf(order) == done;
    } else {
      var k := order[0];
      if KeyOk(k, raw[k]) {
        var done' := done + {k};
        ApplyOne(s, raw, done, k);
        assert forall x :: x in order[1..] ==> x in order && x != k;
        OrderedIsMerged(s, raw, done', order[1..]);
        assert order == [k] + order[1..];
        assert done' + KeysOf(order[1..]) == done + KeysOf(order);
      } else {
        assert k in Restrict(raw, done + KeysOf(order));
      }
    }
  }

  // The merge does not depend on the iteration order of the body: for every two
  // orders both fail or both succeed with the same settings.
  lemma {:induction false} OrderIrrelevant(s: Record, raw: map<Key, Json>, a: seq<Key>, b: seq<Key>)
    requires Complete(s) && Distinct(a) && Distinct(b) && KeysOf(a) == raw.Keys && KeysOf(b) == raw.Keys
    requires (forall k :: k in a ==> k in raw) && (forall k :: k in b ==> k in raw)
    ensures var ra, rb := ApplyInOrder(s, raw, a), ApplyInOrder(s, raw, b);
            (ra.Ok? <==> rb.Ok?) && (ra.Ok? ==> ra == rb) && (ra.Ok? <==> BodyOk(raw)) && (ra.Ok? ==> ra.value == Merged(s, raw))
  {
    RestrictNone(raw);
    RestrictAll(raw, raw.Keys);
    assert {} + KeysOf(a) == raw.Keys && {} + KeysOf(b) == raw.Keys;
    MergedEmpty(s);
    OrderedIsMerged(s, raw, {}, a);
    OrderedIsMerged(s, raw, {}, b);
  }

  // Success leaves every field the body does not name unchanged.
  lemma UnnamedFieldsKept(s: Record, raw: map<Key, Json>)
    requires Complete(s) && BodyOk(raw)
    ensures var m := Merged(s, raw);
            Complete(m) &&
            (forall f :: Secret(f) !in raw ==> m.secrets[f] == s.secrets[f]) && (forall f :: Text(f) !in raw ==> m.texts[f] == s.texts[f]) &&
            (forall f :: Flag(f) !in raw ==> m.flags[f] == s.flags[f]) && (forall f :: Num(f) !in raw ==> m.nums[f] == s.nums[f])
  {
    forall f: NumField | Num(f) in raw ensures InInt64(Merged(s, raw).nums[f]) { assert KeyOk(Num(f), raw[Num(f)]); }
  }

  // ---- masking ----

  function Mask(s: Record): Record {
    s.(secrets := map f | f in s.secrets :: if s.secrets[f] != "" then MASK else "")
  }

  // The body a client sends back when it returns a record whole.
  ghost function Body(s: Record): map<Key, Json>
    requires Complete(s)
  {
    map k: Key | k in AllKeys(s) :: FieldJson(s, k)
  }

  ghost function AllKeys(s: Record): set<Key> {
    (set f | f in s.secrets :: Secret(f)) + (set f | f in s.texts :: Text(f)) +
    (set f | f in s.flags :: Flag(f)) + (set f | f in s.nums :: Num(f))
  }

  ghost function FieldJson(s: Record, k: Key): Json
    requires Complete(s)
  {
    match k
    case Secret(f) => JString(s.secrets[f])
    case Text(f) => JString(s.texts[f])
    case Flag(f) => JBool(s.flags[f])
    case Num(f) => JInt(s.nums[f])
    case Unknown(_) => JNull
  }

  // What the merge itself enforces on the webxdc fields.
  ghost predicate WebxdcNormal(s: Record)
    requires Complete(s)
  {
    Trim(s.texts[WebxdcGalleryRemoteCatalogUrl]) == s.texts[WebxdcGalleryRemoteCatalogUrl] &&
    Trim(s.texts[WebxdcGallerySource]) == s.texts[WebxdcGallerySource] && GallerySource(s.texts[WebxdcGallerySource]) &&
    (forall f: NumField :: NumInBounds(f, s.nums[f]))
  }

  lemma TrimMask()
    ensures Trim(MASK) == MASK && MASK != "" && Trim("") == ""
  {
  }

  lemma MaskComplete(s: Record)
    requires Complete(s)
    ensures Complete(Mask(s)) && Mask(s).texts == s.texts && Mask(s).flags == s.flags && Mask(s).nums == s.nums
  {
  }

  lemma BodyKeys(s: Record, k: Key)
    requires Complete(s)
    ensures k in Body(s) <==> !k.Unknown?
    ensures k in Body(s) ==> Body(s)[k] == FieldJson(s, k)
  {
    assert k in AllKeys(s) <==> !k.Unknown? by {
      match k
      case Secret(f) => assert f in s.secrets;
      case Text(f) => assert f in s.texts;
      case Flag(f) => assert f in s.flags;
      case Num(f) => assert f in s.nums;
      case Unknown(_) =>
    }
  }

  ghost predicate BodyAccepted(s: Record)
    requires Complete(s)
  {
    GallerySource(Trim(s.texts[WebxdcGallerySource])) && forall f: NumField :: NumInBounds(f, s.nums[f])
  }

  lemma BodyFieldOk(s: Record, k: Key)
    requires Complete(s) && BodyOk(Body(s)) && !k.Unknown?
    ensures KeyOk(k, FieldJson(s, k))
  {
    BodyKeys(s, k);
    assert KeyOk(k, Body(s)[k]);
  }

  lemma AcceptedFieldOk(s: Record, k: Key)
    requires Complete(s) && BodyAccepted(s) && k in Body(s)
    ensures KeyOk(k, Body(s)[k])
  {
    BodyKeys(s, k);
    if k.Num? { assert NumInBounds(k.n, s.nums[k.n]); }
  }

  lemma BodyOkIff(s: Record)
    requires Complete(s)
    ensures BodyOk(Body(s)) <==> BodyAccepted(s)
  {
    if BodyOk(Body(s)) {
      forall f: NumField ensures NumInBounds(f, s.nums[f]) { BodyFieldOk(s, Num(f)); }
      BodyFieldOk(s, Text(WebxdcGallerySource));
    }
    if BodyAccepted(s) {
      forall k | k in Body(s) ensures KeyOk(k, Body(s)[k]) { AcceptedFieldOk(s, k); }
    }
  }

  // What the merge of the masked body writes into each field.
  lemma SecretRoundTrip(s: Record, f: SecretField)
    requires Complete(s) && Complete(Mask(s)) && BodyOk(Body(Mask(s)))
    ensures SecretAfter(s, Body(Mask(s)), f) == s.secrets[f]
  {
    TrimMask();
    BodyKeys(Mask(s), Secret(f));
    assert f in s.secrets;
  }

  lemma TextRoundTrip(s: Record, f: TextField)
    requires Complete(s) && Complete(Mask(s)) && BodyOk(Body(Mask(s)))
    ensures TextAfter(s, Body(Mask(s)), f) == TextValue(f, JString(s.texts[f]))
  {
    BodyKeys(Mask(s), Text(f));
  }

  lemma FlagsRoundTrip(s: Record)
    requires Complete(s) && Complete(Mask(s)) && BodyOk(Body(Mask(s)))
    ensures FlagsAfter(s, Body(Mask(s))) == s.flags
  {
    forall f: FlagField ensures FlagAfter(s, Body(Mask(s)), f) == s.flags[f] { BodyKeys(Mask(s), Flag(f)); }
  }

  lemma NumsRoundTrip(s: Record)
    requires Complete(s) && Complete(Mask(s)) && BodyOk(Body(Mask(s)))
    ensures NumsAfter(s, Body(Mask(s))) == s.nums
  {
    forall f: NumField ensures NumAfter(s, Body(Mask(s)), f) == s.nums[f] { BodyKeys(Mask(s), Num(f)); }
  }

  lemma SameTextsIff(a: map<TextField, string>, b: map<TextField, string>)
    requires a.Keys == b.Keys
    ensures a == b <==> forall f :: f in b ==> a[f] == b[f]
  {
  }

  lemma TextsRoundTrip(s: Record)
    requires Complete(s) && Complete(Mask(s)) && BodyOk(Body(Mask(s)))
    ensures TextsAfter(s, Body(Mask(s))).Keys == s.texts.Keys
    ensures forall f :: f in s.texts ==> TextsAfter(s, Body(Mask(s)))[f] == TextValue(f, JString(s.texts[f]))
  {
    forall f | f in s.texts ensures TextAfter(s, Body(Mask(s)), f) == TextValue(f, JString(s.texts[f])) { TextRoundTrip(s, f); }
  }

  predicate TextsFixed(texts: map<TextField, string>) {
    forall f :: f in texts ==> TextValue(f, JString(texts[f])) == texts[f]
  }

  lemma TextsFixedIff(s: Record)
    requires Complete(s) && Complete(Mask(s)) && BodyOk(Body(Mask(s)))
    ensures TextsAfter(s, Body(Mask(s))) == s.texts <==> TextsFixed(s.texts)
  {
    TextsRoundTrip(s);
    SameTextsIff(TextsAfter(s, Body(Mask(s))), s.texts);
  }

  lemma WebxdcNormalIff(s: Record)
    requires Complete(s) && BodyAccepted(s)
    ensures WebxdcNormal(s) <==> TextsFixed(s.texts)
  {
    assert WebxdcGalleryRemoteCatalogUrl in s.texts && WebxdcGallerySource in s.texts;
  }

  lemma SecretsRoundTrip(s: Record)
    requires Complete(s) && Complete(Mask(s)) && BodyOk(Body(Mask(s)))
    ensures SecretsAfter(s, Body(Mask(s))) == s.secrets
  {
    forall f: SecretField ensures SecretAfter(s, Body(Mask(s)), f) == s.secrets[f] { SecretRoundTrip(s, f); }
  }

  // Mask/merge round trip, both ways: sending the masked record back changes
  // nothing, secrets included, exactly when the webxdc fields are in normal form.
  lemma {:induction false} MaskMergeRoundTrip(s: Record)
    requires Complete(s)
    ensures Complete(Mask(s)) &&
            ((BodyOk(Body(Mask(s))) && Merged(s, Body(Mask(s))) == s) <==> WebxdcNormal(s))
  {
    MaskComplete(s);
    BodyOkIff(Mask(s));
    if BodyOk(Body(Mask(s))) {
      SecretsRoundTrip(s);
      FlagsRoundTrip(s);
      NumsRoundTrip(s);
      TextsFixedIff(s);
      WebxdcNormalIff(s);
    }
  }

  // The masked record says nothing about a secret but whether it is set.
  lemma MaskHidesSecrets(s: Record, t: Record)
    requires t == s.(secrets := t.secrets) && t.secrets.Keys == s.secrets.Keys
    requires forall f :: f in s.secrets ==> (s.secrets[f] == "" <==> t.secrets[f] == "")
    ensures Mask(s) == Mask(t)
  {
  }

  // ---- what is sent is what is stored ----

  lemma FullSecret(s: Record, t: Record, f: SecretField)
    requires Complete(s) && Complete(t) && BodyOk(Body(t)) && Trim(t.secrets[f]) != MASK
    ensures SecretAfter(s, Body(t), f) == t.secrets[f]
  {
    BodyKeys(t, Secret(f));
  }

  lemma FullText(s: Record, t: Record, f: TextField)
    requires Complete(s) && Complete(t) && BodyOk(Body(t)) && WebxdcNormal(t)
    ensures TextAfter(s, Body(t), f) == t.texts[f]
  {
    BodyKeys(t, Text(f));
  }

  lemma FullSecrets(s: Record, t: Record)
    requires Complete(s) && Complete(t) && BodyOk(Body(t)) && forall f: SecretField :: Trim(t.secrets[f]) != MASK
    ensures SecretsAfter(s, Body(t)) == t.secrets
  {
    forall f: SecretField ensures SecretAfter(s, Body(t), f) == t.secrets[f] { FullSecret(s, t, f); }
  }

  lemma FullTexts(s: Record, t: Record)
    requires Complete(s) && Complete(t) && BodyOk(Body(t)) && WebxdcNormal(t)
    ensures TextsAfter(s, Body(t)) == t.texts
  {
    forall f: TextField ensures TextAfter(s, Body(t), f) == t.texts[f] { FullText(s, t, f); }
  }

  lemma FullFlags(s: Record, t: Record)
    requires Complete(s) && Complete(t) && BodyOk(Body(t))
    ensures FlagsAfter(s, Body(t)) == t.flags
  {
    forall f: FlagField ensures FlagAfter(s, Body(t), f) == t.flags[f] { BodyKeys(t, Flag(f)); }
  }

  lemma FullNums(s: Record, t: Record)
    requires Complete(s) && Complete(t) && BodyOk(Body(t))
    ensures NumsAfter(s, Body(t)) == t.nums
  {
    forall f: NumField ensures NumAfter(s, Body(t), f) == t.nums[f] { BodyKeys(t, Num(f)); }
  }

  // Full write: sending a whole record in webxdc normal form, with no secret that
  // reads as the mask, stores exactly that record, whatever was stored before.
  lemma {:induction false} FullWrite(s: Record, t: Record)
    requires Complete(s) && Complete(t) && WebxdcNormal(t)
    requires forall f: SecretField :: Trim(t.secrets[f]) != MASK
    ensures BodyOk(Body(t)) && Merged(s, Body(t)) == t
  {
    BodyOkIff(t);
    FullSecrets(s, t);
    FullTexts(s, t);
    FullFlags(s, t);
    FullNums(s, t);
  }

  // ---- strings.TrimSpace ----

  lemma {:induction false} TrimFront(a: string, core: string)
    requires forall c :: c in a ==> IsSpace(c)
    ensures Trim(a + core) == Trim(core)
  {
    if a == "" {
      assert a + core == core;
    } else {
      assert (a + core)[1..] == a[1..] + core;
      assert a[0] in a;
      TrimFront(a[1..], core);
    }
  }

  lemma {:induction false} TrimBack(core: string, b: string)
    requires core != "" && !IsSpace(core[0]) && !IsSpace(core[|core| - 1]) && forall c :: c in b ==> IsSpace(c)
    ensures Trim(core + b) == core
  {
    if b == "" {
      assert core + b == core;
    } else {
      assert (core + b)[..|core + b| - 1] == core + b[..|b| - 1];
      assert b[|b| - 1] in b;
      TrimBack(core, b[..|b| - 1]);
    }
  }

  // Trimming removes the white space around a string and nothing else.
  lemma {:induction false} TrimExact(a: string, core: string, b: string)
    requires (forall c :: c in a ==> IsSpace(c)) && (forall c :: c in b ==> IsSpace(c))
    requires core != "" && !IsSpace(core[0]) && !IsSpace(core[|core| - 1])
    ensures Trim(a + core + b) == core
  {
    assert a + core + b == a + (core + b);
    TrimFront(a, core + b);
    TrimBack(core, b);
  }

  lemma AsciiSpaces(c: char)
    ensures c as int < 0x80 ==> (IsSpace(c) <==> c == ' ' || c == '\t' || c == '\n' || c == '\r' || c as int == 0x0b || c as int == 0x0c)
  {
  }

  // ---- one field of the body ----

  // After a merge a named secret is what was sent, unless that reads as eight
  // bullets, which keep what was stored; a null empties it.
  lemma SentSecret(s: Record, raw: map<Key, Json>, f: SecretField, x: string)
    requires Complete(s) && BodyOk(raw) && Secret(f) in raw
    ensures raw[Secret(f)] == JString(x) ==>
              Merged(s, raw).secrets[f] == (if Trim(x) == "\U{2022}\U{2022}\U{2022}\U{2022}\U{2022}\U{2022}\U{2022}\U{2022}" then s.secrets[f] else x)
    ensures raw[Secret(f)] == JNull ==> Merged(s, raw).secrets[f] == ""
  {
    TrimMask();
  }

  // A named text is what was sent, the two webxdc ones trimmed.
  lemma SentText(s: Record, raw: map<Key, Json>, f: TextField, x: string)
    requires Complete(s) && BodyOk(raw) && Text(f) in raw
    ensures raw[Text(f)] == JString(x) ==>
              Merged(s, raw).texts[f] == (if f == WebxdcGalleryRemoteCatalogUrl || f == WebxdcGallerySource then Trim(x) else x)
    ensures raw[Text(f)] == JNull ==> Merged(s, raw).texts[f] == ""
  {
    TrimMask();
  }

  lemma SentFlag(s: Record, raw: map<Key, Json>, f: FlagField, b: bool)
    requires Complete(s) && BodyOk(raw) && Flag(f) in raw
    ensures raw[Flag(f)] == JBool(b) ==> Merged(s, raw).flags[f] == b
    ensures raw[Flag(f)] == JNull ==> !Merged(s, raw).flags[f]
  {
  }

  lemma SentNum(s: Record, raw: map<Key, Json>, f: NumField, i: int)
    requires Complete(s) && BodyOk(raw) && Num(f) in raw
    ensures raw[Num(f)] == JInt(i) ==> Merged(s, raw).nums[f] == i
    ensures raw[Num(f)] == JNull ==> Merged(s, raw).nums[f] == 0
  {
  }

  // Which values the merge itself takes: null or the field's own JSON type, an
  // integer of 64 bits, the bounds of the webxdc numbers, the five gallery sources.
  lemma TakenIff(k: Key, v: Json)
    ensures BodyOk(map[k := v]) <==>
            (match k
             case Secret(_) => v.JNull? || v.JString?
             case Text(f) => v.JNull? || (v.JString? && (f == WebxdcGallerySource ==> Trim(v.text) in {"", "local", "remote", "both", "semi-remote"}))
             case Flag(_) => v.JNull? || v.JBool?
             case Num(f) =>
               v.JNull? ||
               (v.JInt? && -9_223_372_036_854_775_808 <= v.i <= 9_223_372_036_854_775_807 &&
                (f == WebxdcMaxArchiveMB ==> 0 <= v.i <= 512) && (f == WebxdcMaxUncompressedMB ==> 0 <= v.i <= 1024) &&
                (f == WebxdcMaxSingleFileMB ==> 0 <= v.i <= 256) && (f == WebxdcMaxEntries ==> 0 <= v.i <= 10_000))
             case Unknown(_) => true)
  {
    TrimMask();
    assert BodyOk(map[k := v]) <==> KeyOk(k, v) by {
      if BodyOk(map[k := v]) { assert k in map[k := v] && map[k := v][k] == v; }
    }
  }

  // The mask of a secret is eight bullets, or nothing for an empty one.
  lemma MaskWrittenOut(s: Record, f: SecretField)
    requires f in s.secrets
    ensures f in Mask(s).secrets
    ensures Mask(s).secrets[f] == (if s.secrets[f] == "" then "" else "\U{2022}\U{2022}\U{2022}\U{2022}\U{2022}\U{2022}\U{2022}\U{2022}")
    ensures Mask(s).texts == s.texts && Mask(s).flags == s.flags && Mask(s).nums == s.nums
  {
  }
}
