/** Idempotent replays: which stored record counts as the same request. */
module Payload {
  import opened Base

  /** Python's `str.lower` and `str.strip`. Nothing below depends on what they do, so every result
      holds for the real Unicode tables. */
  datatype Text = Text(lower: string -> string, strip: string -> string)

  datatype Attachment = Attachment(filename: string, contentType: string, contentBase64: string)

  /** A dict in insertion order; its keys are distinct until they are lowercased. */
  type Headers = seq<(string, string)>

  datatype Request = Request(
    caller: string, key: Option<string>,
    from_: string, envelopeFrom: Option<string>, profile: Option<string>, replyTo: Option<string>,
    to: seq<string>, cc: Option<seq<string>>, bcc: Option<seq<string>>,
    headers: Option<Headers>, tags: Option<seq<string>>, attachments: Option<seq<Attachment>>,
    subject: string, body: string, html: bool)

  /** A JSON column as it comes back: absent, decoded, still JSON text (which decodes to the expected
      shape or not), or decoded to a value of another shape. */
  datatype Column<+T> = Missing | Decoded(value: T) | JsonText(parsed: Option<T>) | OtherShape

  datatype Stored = Stored(
    from_: string, envelopeFrom: string, profile: Option<string>, replyTo: Option<string>,
    to: Column<seq<string>>, cc: Column<seq<string>>, bcc: Column<seq<string>>,
    headers: Column<Headers>, tags: Column<seq<string>>, attachments: Column<seq<Attachment>>,
    subject: string, body: string, html: bool)

  datatype Verdict = Matches | Differs | Corrupt

  // ----- the service's functions -----

  /** `email_request.envelope_from or email_request.from_address`. */
  function EnvelopeOf(r: Request): string {
    if r.envelopeFrom.Some? && r.envelopeFrom.value != "" then r.envelopeFrom.value else r.from_
  }

  function ToColumn<T>(o: Option<T>): Column<T> {
    match o case None => Missing case Some(v) => Decoded(v)
  }

  /** The payload columns that `create_email` writes. */
  function Store(r: Request): Stored {
    Stored(r.from_, EnvelopeOf(r), r.profile, r.replyTo,
           Decoded(r.to), ToColumn(r.cc), ToColumn(r.bcc),
           ToColumn(r.headers), ToColumn(r.tags), ToColumn(r.attachments),
           r.subject, r.body, r.html)
  }

  function NormalizeAddresses(t: Text, addresses: Option<seq<string>>): seq<string> {
    match addresses
    case None => []
    case Some(list) => seq(|list|, i requires 0 <= i < |list| => t.lower(t.strip(list[i])))
  }

  function NormalizeHeaderMap(t: Text, headers: Headers): map<string, string> {
    if headers == [] then map[]
    else
      var n := |headers| - 1;
      NormalizeHeaderMap(t, headers[..n])[t.lower(headers[n].0) := headers[n].1]
  }

  function NormalizeHeaders(t: Text, headers: Option<Headers>): Option<map<string, string>> {
    match headers case None => None case Some(h) => Some(NormalizeHeaderMap(t, h))
  }

  /** The value of a column, or nothing at all when it cannot be parsed. */
  function Parse<T>(c: Column<T>): Option<Option<T>> {
    match c
    case Missing => Some(None)
    case Decoded(v) => Some(Some(v))
    case JsonText(Some(v)) => Some(Some(v))
    case JsonText(None) => None
    case OtherShape => None
  }

  function LowerReplyTo(t: Text, r: Option<string>): Option<string> {
    if r.Some? && r.value != "" then Some(t.lower(r.value)) else None
  }

  predicate Readable(s: Stored) {
    && Parse(s.to).Some? && Parse(s.cc).Some? && Parse(s.bcc).Some?
    && Parse(s.headers).Some? && Parse(s.tags).Some? && Parse(s.attachments).Some?
  }

  /** `_payload_matches`, with `Corrupt` for `StoredPayloadParseError`. */
  function PayloadMatches(t: Text, s: Stored, r: Request): Verdict {
    if !Readable(s) then Corrupt
    else if
      && t.lower(s.from_) == t.lower(r.from_)
      && t.lower(s.envelopeFrom) == t.lower(EnvelopeOf(r))
      && s.profile == r.profile
      && LowerReplyTo(t, s.replyTo) == LowerReplyTo(t, r.replyTo)
      && NormalizeAddresses(t, Parse(s.to).value) == NormalizeAddresses(t, Some(r.to))
      && NormalizeAddresses(t, Parse(s.cc).value) == NormalizeAddresses(t, r.cc)
      && NormalizeAddresses(t, Parse(s.bcc).value) == NormalizeAddresses(t, r.bcc)
      && NormalizeHeaders(t, Parse(s.headers).value) == NormalizeHeaders(t, r.headers)
      && Parse(s.tags).value == r.tags
      && Parse(s.attachments).value == r.attachments
      && s.subject == r.subject && s.body == r.body && s.html == r.html
    then Matches else Differs
  }

  // ----- what it should mean -----

  ghost predicate SameAddress(t: Text, a: string, b: string) { t.lower(t.strip(a)) == t.lower(t.strip(b)) }

  ghost function Items(o: Option<seq<string>>): seq<string> { if o.Some? then o.value else [] }

  ghost predicate SameList(t: Text, a: Option<seq<string>>, b: Option<seq<string>>) {
    && |Items(a)| == |Items(b)|
    && forall i :: 0 <= i < |Items(a)| ==> SameAddress(t, Items(a)[i], Items(b)[i])
  }

  /** `headers` gives the folded name `n` the value `v`: the last of its spellings does. */
  ghost predicate Gives(t: Text, headers: Headers, n: string, v: string) {
    exists i :: && 0 <= i < |headers| && t.lower(headers[i].0) == n && headers[i].1 == v
                && forall j :: i < j < |headers| ==> t.lower(headers[j].0) != n
  }

  ghost predicate SameHeaders(t: Text, a: Option<Headers>, b: Option<Headers>) {
    match (a, b)
    case (None, None) => true
    case (Some(x), Some(y)) => forall n, v :: Gives(t, x, n, v) <==> Gives(t, y, n, v)
    case _ => false
  }

  ghost predicate SameOptionalAddress(t: Text, a: Option<string>, b: Option<string>) {
    if a == None || a == Some("") then b == None || b == Some("")
    else b.Some? && b != Some("") && t.lower(a.value) == t.lower(b.value)
  }

  /** Two requests ask for the same email. */
  ghost predicate SameEmail(t: Text, a: Request, b: Request) {
    && t.lower(a.from_) == t.lower(b.from_)
    && t.lower(EnvelopeOf(a)) == t.lower(EnvelopeOf(b))
    && a.profile == b.profile
    && SameOptionalAddress(t, a.replyTo, b.replyTo)
    && SameList(t, Some(a.to), Some(b.to)) && SameList(t, a.cc, b.cc) && SameList(t, a.bcc, b.bcc)
    && SameHeaders(t, a.headers, b.headers)
    && a.tags == b.tags && a.attachments == b.attachments
    && a.subject == b.subject && a.body == b.body && a.html == b.html
  }

  lemma NormalizedLists(t: Text, a: Option<seq<string>>, b: Option<seq<string>>)
    ensures NormalizeAddresses(t, a) == NormalizeAddresses(t, b) <==> SameList(t, a, b)
  {
    var x, y := Items(a), Items(b);
    var nx, ny := NormalizeAddresses(t, a), NormalizeAddresses(t, b);
    assert |nx| == |x| && |ny| == |y|;
    if nx == ny {
      forall i | 0 <= i < |x| ensures SameAddress(t, x[i], y[i]) {
        assert nx[i] == ny[i];
      }
    }
    if SameList(t, a, b) {
      forall i | 0 <= i < |x| ensures nx[i] == ny[i] {
        assert SameAddress(t, x[i], y[i]);
      }
    }
  }

  /** The normalised dict holds, for every folded name, the value of its last spelling. */
  lemma {:induction false} NormalizedHeaderMap(t: Text, h: Headers, n: string, v: string)
    ensures Gives(t, h, n, v) <==> n in NormalizeHeaderMap(t, h) && NormalizeHeaderMap(t, h)[n] == v
  {
    if h != [] {
      var last := |h| - 1;
      NormalizedHeaderMap(t, h[..last], n, v);
      if t.lower(h[last].0) == n {
        assert Gives(t, h, n, v) <==> h[last].1 == v;
      } else {
        if i :| && 0 <= i < |h| && t.lower(h[i].0) == n && h[i].1 == v
                && forall j :: i < j < |h| ==> t.lower(h[j].0) != n {
          assert h[..last][i] == h[i];
          assert Gives(t, h[..last], n, v);
        }
        if i :| && 0 <= i < last && t.lower(h[..last][i].0) == n && h[..last][i].1 == v
                && forall j :: i < j < last ==> t.lower(h[..last][j].0) != n {
          assert forall j :: i < j < last ==> h[..last][j] == h[j];
          assert Gives(t, h, n, v);
        }
      }
    }
  }

  lemma NormalizedHeaders(t: Text, a: Option<Headers>, b: Option<Headers>)
    ensures NormalizeHeaders(t, a) == NormalizeHeaders(t, b) <==> SameHeaders(t, a, b)
  {
    if a.Some? && b.Some? {
      var x, y := NormalizeHeaderMap(t, a.value), NormalizeHeaderMap(t, b.value);
      forall n, v ensures Gives(t, a.value, n, v) <==> n in x && x[n] == v {
        NormalizedHeaderMap(t, a.value, n, v);
      }
      forall n, v ensures Gives(t, b.value, n, v) <==> n in y && y[n] == v {
        NormalizedHeaderMap(t, b.value, n, v);
      }
      if SameHeaders(t, a, b) {
        forall n ensures n in x <==> n in y {
          if n in x { assert Gives(t, b.value, n, x[n]); }
          if n in y { assert Gives(t, a.value, n, y[n]); }
        }
        forall n | n in x ensures x[n] == y[n] {
          assert Gives(t, b.value, n, x[n]);
        }
        assert x == y;
      }
    }
  }

  /** A record stored from `a` matches `b` exactly when they ask for the same email. */
  lemma MatchIsSameEmail(t: Text, a: Request, b: Request)
    ensures PayloadMatches(t, Store(a), b) == (if SameEmail(t, a, b) then Matches else Differs)
  {
    NormalizedLists(t, Some(a.to), Some(b.to));
    NormalizedLists(t, a.cc, b.cc);
    NormalizedLists(t, a.bcc, b.bcc);
    NormalizedHeaders(t, a.headers, b.headers);
  }

  /** Hence matching is an equivalence on requests, and a request matches its own record. */
  lemma MatchIsEquivalence(t: Text, a: Request, b: Request, c: Request)
    ensures PayloadMatches(t, Store(a), a) == Matches
    ensures PayloadMatches(t, Store(a), b) == PayloadMatches(t, Store(b), a)
    ensures PayloadMatches(t, Store(a), b) == Matches && PayloadMatches(t, Store(b), c) == Matches
            ==> PayloadMatches(t, Store(a), c) == Matches
  {
    MatchIsSameEmail(t, a, a);
    MatchIsSameEmail(t, a, b);
    MatchIsSameEmail(t, b, a);
    MatchIsSameEmail(t, b, c);
    MatchIsSameEmail(t, a, c);
  }

  /** The same value kept as JSON text. */
  ghost predicate SameColumn<T(!new)>(c: Column<T>, d: Column<T>) {
    c == d || (c.Decoded? && d == JsonText(Some(c.value)))
  }

  /** A column whose value cannot be read: text that is not the JSON of the expected shape, or another shape. */
  predicate Unreadable<T(==)>(c: Column<T>) { c == OtherShape || c == JsonText(None) }

  /** A row is corrupt for every request if and only if one of its columns cannot be read; it then matches nothing. */
  lemma CorruptIffUnreadable(t: Text, s: Stored, r: Request)
    ensures PayloadMatches(t, s, r) == Corrupt
            <==> || Unreadable(s.to) || Unreadable(s.cc) || Unreadable(s.bcc)
                 || Unreadable(s.headers) || Unreadable(s.tags) || Unreadable(s.attachments)
  {
  }

  /** Rows written as JSON text by older releases match the same requests. */
  lemma JsonTextMatchesAlike(t: Text, a: Request, s: Stored, r: Request)
    requires s == Store(a).(to := s.to, cc := s.cc, bcc := s.bcc, headers := s.headers,
                            tags := s.tags, attachments := s.attachments)
    requires && SameColumn(Store(a).to, s.to) && SameColumn(Store(a).cc, s.cc)
             && SameColumn(Store(a).bcc, s.bcc) && SameColumn(Store(a).headers, s.headers)
             && SameColumn(Store(a).tags, s.tags) && SameColumn(Store(a).attachments, s.attachments)
    ensures PayloadMatches(t, s, r) == (if SameEmail(t, a, r) then Matches else Differs)
  {
    MatchIsSameEmail(t, a, r);
  }
}
