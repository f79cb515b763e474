/** Canonical JSON of a business payload and of a message envelope: the texts that are hashed to
    detect reuse of an identity with different content. */
module Payload {
  import opened Wrappers
  import opened Text
  import opened Monetary
  import opened Model
  import Decimal

  // ----- JSON strings, as encoding/json writes them (section 7 of RFC 8259) -----

  function HexDigit(n: nat): (c: char)
    requires n < 16
  {
    "0123456789abcdef"[n]
  }

  function Hex4(n: nat): (s: string)
    requires n < 0x10000
    ensures |s| == 4
  {
    [HexDigit(n / 4096), HexDigit(n / 256 % 16), HexDigit(n / 16 % 16), HexDigit(n % 16)]
  }

  predicate LongEscape(c: char) {
    || (c < ' ' && c != '\n' && c != '\r' && c != '\t' && c != '\U{08}' && c != '\U{0C}')
    || c == '<' || c == '>' || c == '&' || c == '\U{2028}' || c == '\U{2029}'
  }

  /** One character inside a JSON string, with the HTML-safe escapes that Go applies. */
  function Escape(c: char): (s: string)
    ensures s != "" && s[0] != '"'
  {
    if c == '"' then ['\\', '"']
    else if c == '\\' then ['\\', '\\']
    else if c == '\n' then ['\\', 'n']
    else if c == '\r' then ['\\', 'r']
    else if c == '\t' then ['\\', 't']
    else if c == '\U{08}' then ['\\', 'b']
    else if c == '\U{0C}' then ['\\', 'f']
    else if LongEscape(c) then ['\\', 'u'] + Hex4(c as nat)
    else [c]
  }

  function EscapeAll(s: string): string {
    if s == "" then "" else Escape(s[0]) + EscapeAll(s[1..])
  }

  function Quote(s: string): string {
    ['"'] + EscapeAll(s) + ['"']
  }

  // ----- Texts, each piece followed by the rest of the text -----

  /** A field name with its colon. The names are constants that need no escape. */
  function Key(name: string): string {
    ['"'] + name + ['"', ':']
  }

  function First(name: string, value: string, rest: string): string {
    Key(name) + (Quote(value) + rest)
  }

  function Next(name: string, value: string, rest: string): string {
    "," + First(name, value, rest)
  }

  function MoneyText(m: Money, rest: string): string {
    ",\"money\":{\"amount\":" + (Quote(Decimal.Print(m)) + (",\"currency\":" + (Quote(m.currency.code) + ("}" + rest))))
  }

  function ReferenceText(reference: string, rest: string): string {
    if reference == "" then rest else Next("referenceExternalTransactionId", reference, rest)
  }

  function WalletText(i: Input, rest: string): string {
    Next("roundId", i.round, Next("walletId", i.wallet, "}" + rest))
  }

  function PlayerText(i: Input, rest: string): string {
    MoneyText(i.amount, Next("playerId", i.player, Next("providerId", i.provider,
    ReferenceText(i.reference, WalletText(i, rest)))))
  }

  /** The canonical business payload. The service hashes it with SHA-256; the text itself stands
      for its hash here. */
  function Canonical(i: Input): string {
    "{" + First("externalTransactionId", i.external, Next("gameId", i.game, Next("kind", KindName(i.kind),
    PlayerText(i, ""))))
  }

  /** The fields a payload speaks of: everything but the idempotency key and the correlation id. */
  predicate SameBusiness(a: Input, b: Input) {
    && a.provider == b.provider && a.external == b.external && a.wallet == b.wallet && a.player == b.player
    && a.round == b.round && a.game == b.game && a.kind == b.kind && a.amount == b.amount
    && a.reference == b.reference
  }

  datatype Envelope = Envelope(id: string, kind: string, occurredAt: string, input: Input)

  function MessageText(e: Envelope): string {
    Next("messageId", e.id, Next("occurredAt", e.occurredAt, Next("type", e.kind, "}")))
  }

  /** The canonical envelope; `occurredAt` is its RFC 3339 text in UTC. */
  function CanonicalEnvelope(e: Envelope): string {
    var i := e.input;
    "{\"data\":{" + First("externalTransactionId", i.external, Next("gameId", i.game, Next("idempotencyKey", i.key,
    Next("kind", KindName(i.kind), PlayerText(i, MessageText(e))))))
  }

  // ----- Quoted strings end where they say they end -----

  lemma Nibbles(n: nat)
    requires n < 0x10000
    ensures n == 4096 * (n / 4096) + 256 * (n / 256 % 16) + 16 * (n / 16 % 16) + n % 16
  {
    var a := n / 16;
    var b := a / 16;
    assert n / 256 == b;
    assert n / 4096 == b / 16;
  }

  lemma HexDigitInjective(m: nat, n: nat)
    requires m < 16 && n < 16 && HexDigit(m) == HexDigit(n)
    ensures m == n
  {}

  lemma HexInjective(m: nat, n: nat)
    requires m < 0x10000 && n < 0x10000 && Hex4(m) == Hex4(n)
    ensures m == n
  {
    var s, t := Hex4(m), Hex4(n);
    assert s[0] == t[0] && s[1] == t[1] && s[2] == t[2] && s[3] == t[3];
    HexDigitInjective(m / 4096, n / 4096);
    HexDigitInjective(m / 256 % 16, n / 256 % 16);
    HexDigitInjective(m / 16 % 16, n / 16 % 16);
    HexDigitInjective(m % 16, n % 16);
    Nibbles(m);
    Nibbles(n);
  }

  lemma EscapeInjective(c: char, d: char)
    requires Escape(c) == Escape(d)
    ensures c == d
  {
    var s, t := Escape(c), Escape(d);
    if |s| == 2 {
      assert s[1] == t[1];
    } else if |s| == 1 {
      assert s[0] == t[0];
    } else {
      assert s[2..] == Hex4(c as nat) && t[2..] == Hex4(d as nat);
      HexInjective(c as nat, d as nat);
    }
  }

  /** The first two characters of an escape tell how long it is. */
  lemma EscapeSize(c: char, d: char)
    requires Escape(c)[0] == Escape(d)[0] && (|Escape(c)| > 1 && |Escape(d)| > 1 ==> Escape(c)[1] == Escape(d)[1])
    ensures |Escape(c)| == |Escape(d)|
  {}

  /** No escape is a prefix of another. */
  lemma EscapePrefixFree(c: char, d: char, u: string, v: string)
    requires Escape(c) + u == Escape(d) + v
    ensures c == d && u == v
  {
    hide Escape;
    var s, t := Escape(c) + u, Escape(d) + v;
    assert s[0] == Escape(c)[0] && t[0] == Escape(d)[0];
    if |Escape(c)| > 1 && |Escape(d)| > 1 {
      assert s[1] == Escape(c)[1] && t[1] == Escape(d)[1];
    }
    EscapeSize(c, d);
    var n := |Escape(c)|;
    assert Escape(c) == s[..n] && Escape(d) == t[..n];
    EscapeInjective(c, d);
    assert u == s[n..] && v == t[n..];
  }

  lemma EscapeStarts(c: char, u: string, x: string)
    ensures Escape(c) + u != ['"'] + x
  {
    assert (Escape(c) + u)[0] == Escape(c)[0];
    assert (['"'] + x)[0] == '"';
  }

  /** The text of a quoted string after its opening quote. */
  function Closing(s: string, rest: string): string {
    if s == "" then ['"'] + rest else Escape(s[0]) + Closing(s[1..], rest)
  }

  lemma {:induction false} QuoteCloses(s: string, rest: string)
    ensures EscapeAll(s) + ['"'] + rest == Closing(s, rest)
  {
    if s != "" {
      QuoteCloses(s[1..], rest);
      var u := EscapeAll(s[1..]);
      assert Escape(s[0]) + u + ['"'] + rest == Escape(s[0]) + (u + ['"'] + rest);
    }
  }

  lemma {:induction false} ClosingCancels(a: string, b: string, x: string, y: string)
    requires Closing(a, x) == Closing(b, y)
    ensures a == b && x == y
  {
    if a == "" && b == "" {
      assert x == Closing(a, x)[1..] && y == Closing(b, y)[1..];
    } else if a == "" {
      EscapeStarts(b[0], Closing(b[1..], y), x);
    } else if b == "" {
      EscapeStarts(a[0], Closing(a[1..], x), y);
    } else {
      EscapePrefixFree(a[0], b[0], Closing(a[1..], x), Closing(b[1..], y));
      ClosingCancels(a[1..], b[1..], x, y);
      assert a == [a[0]] + a[1..] && b == [b[0]] + b[1..];
    }
  }

  /** A quoted text without its opening quote. */
  lemma QuoteOpens(s: string, rest: string)
    ensures |Quote(s) + rest| > 0 && (Quote(s) + rest)[1..] == Closing(s, rest)
  {
    QuoteCloses(s, rest);
    hide EscapeAll, Closing;
    assert (Quote(s) + rest)[1..] == EscapeAll(s) + ['"'] + rest;
  }

  /** JSON strings are self-delimiting and injective. */
  lemma QuoteCancels(a: string, b: string, x: string, y: string)
    requires Quote(a) + x == Quote(b) + y
    ensures a == b && x == y
  {
    hide Quote, Closing;
    QuoteOpens(a, x);
    QuoteOpens(b, y);
    ClosingCancels(a, b, x, y);
  }

  lemma PrefixCancels(p: string, x: string, y: string)
    requires p + x == p + y
    ensures x == y
  {
    assert x == (p + x)[|p|..] && y == (p + y)[|p|..];
  }

  lemma FirstCancels(name: string, a: string, b: string, x: string, y: string)
    requires First(name, a, x) == First(name, b, y)
    ensures a == b && x == y
  {
    PrefixCancels(Key(name), Quote(a) + x, Quote(b) + y);
    QuoteCancels(a, b, x, y);
  }

  lemma NextCancels(name: string, a: string, b: string, x: string, y: string)
    requires Next(name, a, x) == Next(name, b, y)
    ensures a == b && x == y
  {
    PrefixCancels(",", First(name, a, x), First(name, b, y));
    FirstCancels(name, a, b, x, y);
  }

  lemma MoneyCancels(a: Money, b: Money, x: string, y: string)
    requires a.Valid() && b.Valid() && MoneyText(a, x) == MoneyText(b, y)
    ensures a == b && x == y
  {
    var u, v := Quote(a.currency.code) + ("}" + x), Quote(b.currency.code) + ("}" + y);
    PrefixCancels(",\"money\":{\"amount\":", Quote(Decimal.Print(a)) + (",\"currency\":" + u),
                  Quote(Decimal.Print(b)) + (",\"currency\":" + v));
    QuoteCancels(Decimal.Print(a), Decimal.Print(b), ",\"currency\":" + u, ",\"currency\":" + v);
    PrefixCancels(",\"currency\":", u, v);
    QuoteCancels(a.currency.code, b.currency.code, "}" + x, "}" + y);
    PrefixCancels("}", x, y);
    Decimal.PrintInjective(a, b);
  }

  /** The optional reference cannot be confused with the round that follows it. */
  lemma ReferenceCancels(r: string, s: string, a: Input, b: Input, x: string, y: string)
    requires ReferenceText(r, WalletText(a, x)) == ReferenceText(s, WalletText(b, y))
    ensures r == s && WalletText(a, x) == WalletText(b, y)
  {
    if r != "" && s != "" {
      NextCancels("referenceExternalTransactionId", r, s, WalletText(a, x), WalletText(b, y));
    } else if r != "" {
      ThirdLetter("referenceExternalTransactionId", r, WalletText(a, x));
      ThirdLetter("roundId", b.round, Next("walletId", b.wallet, "}" + y));
    } else if s != "" {
      ThirdLetter("referenceExternalTransactionId", s, WalletText(b, y));
      ThirdLetter("roundId", a.round, Next("walletId", a.wallet, "}" + x));
    }
  }

  lemma ThirdLetter(name: string, value: string, rest: string)
    requires |name| > 1
    ensures |Next(name, value, rest)| > 3 && Next(name, value, rest)[3] == name[1]
  {
    assert First(name, value, rest)[2] == Key(name)[2];
  }

  lemma KindNameInjective(a: Kind, b: Kind)
    requires KindName(a) == KindName(b)
    ensures a == b
  {
    assert KindName(a)[0] == KindName(b)[0] && |KindName(a)| == |KindName(b)|;
    assert KindName(a)[1] == KindName(b)[1];
  }

  lemma WalletCancels(a: Input, b: Input, x: string, y: string)
    requires WalletText(a, x) == WalletText(b, y)
    ensures a.round == b.round && a.wallet == b.wallet && x == y
  {
    NextCancels("roundId", a.round, b.round, Next("walletId", a.wallet, "}" + x), Next("walletId", b.wallet, "}" + y));
    NextCancels("walletId", a.wallet, b.wallet, "}" + x, "}" + y);
    PrefixCancels("}", x, y);
  }

  lemma PlayerCancels(a: Input, b: Input, x: string, y: string)
    requires a.amount.Valid() && b.amount.Valid() && PlayerText(a, x) == PlayerText(b, y)
    ensures a.amount == b.amount && a.player == b.player && a.provider == b.provider && a.reference == b.reference
    ensures a.round == b.round && a.wallet == b.wallet && x == y
  {
    var u, v := ReferenceText(a.reference, WalletText(a, x)), ReferenceText(b.reference, WalletText(b, y));
    var s, t := Next("providerId", a.provider, u), Next("providerId", b.provider, v);
    MoneyCancels(a.amount, b.amount, Next("playerId", a.player, s), Next("playerId", b.player, t));
    NextCancels("playerId", a.player, b.player, s, t);
    NextCancels("providerId", a.provider, b.provider, u, v);
    ReferenceCancels(a.reference, b.reference, a, b, x, y);
    WalletCancels(a, b, x, y);
  }

  /** Two payloads are equal text exactly when all business fields agree, the presence of the
      optional reference included, whatever the keys and correlation ids are. */
  lemma CanonicalInjective(a: Input, b: Input)
    requires a.amount.Valid() && b.amount.Valid()
    ensures Canonical(a) == Canonical(b) <==> SameBusiness(a, b)
  {
    if Canonical(a) == Canonical(b) {
      var p, q := PlayerText(a, ""), PlayerText(b, "");
      var s, t := Next("kind", KindName(a.kind), p), Next("kind", KindName(b.kind), q);
      var u, v := Next("gameId", a.game, s), Next("gameId", b.game, t);
      PrefixCancels("{", First("externalTransactionId", a.external, u), First("externalTransactionId", b.external, v));
      FirstCancels("externalTransactionId", a.external, b.external, u, v);
      NextCancels("gameId", a.game, b.game, s, t);
      NextCancels("kind", KindName(a.kind), KindName(b.kind), p, q);
      KindNameInjective(a.kind, b.kind);
      PlayerCancels(a, b, "", "");
    }
  }

  /** Two envelopes are equal text exactly when their own fields and all data fields agree. */
  lemma EnvelopeInjective(e: Envelope, f: Envelope)
    requires e.input.amount.Valid() && f.input.amount.Valid()
    ensures CanonicalEnvelope(e) == CanonicalEnvelope(f)
            <==> SameBusiness(e.input, f.input) && e.input.key == f.input.key
                 && e.id == f.id && e.kind == f.kind && e.occurredAt == f.occurredAt
  {
    if CanonicalEnvelope(e) == CanonicalEnvelope(f) {
      var a, b := e.input, f.input;
      var p, q := PlayerText(a, MessageText(e)), PlayerText(b, MessageText(f));
      var m, n := Next("kind", KindName(a.kind), p), Next("kind", KindName(b.kind), q);
      var s, t := Next("idempotencyKey", a.key, m), Next("idempotencyKey", b.key, n);
      var u, v := Next("gameId", a.game, s), Next("gameId", b.game, t);
      PrefixCancels("{\"data\":{", First("externalTransactionId", a.external, u),
                    First("externalTransactionId", b.external, v));
      FirstCancels("externalTransactionId", a.external, b.external, u, v);
      NextCancels("gameId", a.game, b.game, s, t);
      NextCancels("idempotencyKey", a.key, b.key, m, n);
      NextCancels("kind", KindName(a.kind), KindName(b.kind), p, q);
      KindNameInjective(a.kind, b.kind);
      PlayerCancels(a, b, MessageText(e), MessageText(f));
      MessageCancels(e, f);
    }
  }

  lemma MessageCancels(e: Envelope, f: Envelope)
    requires MessageText(e) == MessageText(f)
    ensures e.id == f.id && e.occurredAt == f.occurredAt && e.kind == f.kind
  {
    var s, t := Next("type", e.kind, "}"), Next("type", f.kind, "}");
    var u, v := Next("occurredAt", e.occurredAt, s), Next("occurredAt", f.occurredAt, t);
    NextCancels("messageId", e.id, f.id, u, v);
    NextCancels("occurredAt", e.occurredAt, f.occurredAt, s, t);
    NextCancels("type", e.kind, f.kind, "}", "}");
  }

  // ----- The layout, spelled out -----

  /** A member's name as it stands in the text, after `before`. */
  function Member(before: string, name: string): string {
    before + "\"" + name + "\":"
  }

  lemma NextIs(name: string, value: string, rest: string)
    ensures Next(name, value, rest) == Member(",", name) + (Quote(value) + rest)
  {
    FirstIs(",", name, value, rest);
  }

  lemma FirstIs(before: string, name: string, value: string, rest: string)
    ensures before + First(name, value, rest) == Member(before, name) + (Quote(value) + rest)
  {
    assert Member(before, name) == before + Key(name);
    hide Quote, Key, Member;
    assert before + (Key(name) + (Quote(value) + rest)) == before + Key(name) + (Quote(value) + rest);
  }

  /** The end of both texts: round and wallet, and the optional reference before them. */
  lemma WalletLayout(i: Input, rest: string)
    ensures ReferenceText(i.reference, WalletText(i, rest)) ==
            var tail := Member(",", "roundId") + (Quote(i.round) + (Member(",", "walletId") + (Quote(i.wallet) + ("}" + rest))));
            if i.reference == "" then tail else Member(",", "referenceExternalTransactionId") + (Quote(i.reference) + tail)
  {
    hide Quote, Next, Member;
    NextIs("walletId", i.wallet, "}" + rest);
    NextIs("roundId", i.round, Next("walletId", i.wallet, "}" + rest));
    if i.reference != "" {
      NextIs("referenceExternalTransactionId", i.reference, WalletText(i, rest));
    }
  }

  /** The shared middle: amount, currency, player and provider. */
  lemma PlayerLayout(i: Input, rest: string)
    ensures PlayerText(i, rest) ==
            ",\"money\":{\"amount\":" + (Quote(Decimal.Print(i.amount)) + (",\"currency\":" + (Quote(i.amount.currency.code) + ("}" +
            (Member(",", "playerId") + (Quote(i.player) + (Member(",", "providerId") + (Quote(i.provider) +
            ReferenceText(i.reference, WalletText(i, rest))))))))))
  {
    hide Quote, ReferenceText, WalletText, Next, Member;
    var u := ReferenceText(i.reference, WalletText(i, rest));
    NextIs("providerId", i.provider, u);
    NextIs("playerId", i.player, Next("providerId", i.provider, u));
  }

  /** The canonical payload: one JSON object with these members in this order. */
  lemma CanonicalLayout(i: Input)
    ensures Canonical(i) ==
            Member("{", "externalTransactionId") + (Quote(i.external) + (Member(",", "gameId") + (Quote(i.game) +
            (Member(",", "kind") + (Quote(KindName(i.kind)) + PlayerText(i, ""))))))
  {
    hide Quote, PlayerText, KindName, Next, First, Member;
    var p := PlayerText(i, "");
    NextIs("kind", KindName(i.kind), p);
    NextIs("gameId", i.game, Next("kind", KindName(i.kind), p));
    FirstIs("{", "externalTransactionId", i.external, Next("gameId", i.game, Next("kind", KindName(i.kind), p)));
  }

  /** The message's own members, after the data object. */
  lemma MessageLayout(e: Envelope)
    ensures MessageText(e) ==
            Member(",", "messageId") + (Quote(e.id) + (Member(",", "occurredAt") + (Quote(e.occurredAt) +
            (Member(",", "type") + (Quote(e.kind) + "}")))))
  {
    hide Quote, Next, Member;
    NextIs("type", e.kind, "}");
    NextIs("occurredAt", e.occurredAt, Next("type", e.kind, "}"));
    NextIs("messageId", e.id, Next("occurredAt", e.occurredAt, Next("type", e.kind, "}")));
  }

  /** The canonical envelope: the data object with the idempotency key, then the message's members. */
  lemma EnvelopeLayout(e: Envelope)
    ensures CanonicalEnvelope(e) ==
            Member("{\"data\":{", "externalTransactionId") + (Quote(e.input.external) + (Member(",", "gameId") + (Quote(e.input.game) +
            (Member(",", "idempotencyKey") + (Quote(e.input.key) + (Member(",", "kind") + (Quote(KindName(e.input.kind)) +
            PlayerText(e.input, MessageText(e)))))))))
  {
    hide Quote, PlayerText, KindName, Next, First, MessageText, Member;
    var i := e.input;
    var p := PlayerText(i, MessageText(e));
    var k := Next("kind", KindName(i.kind), p);
    NextIs("kind", KindName(i.kind), p);
    NextIs("idempotencyKey", i.key, k);
    NextIs("gameId", i.game, Next("idempotencyKey", i.key, k));
    FirstIs("{\"data\":{", "externalTransactionId", i.external, Next("gameId", i.game, Next("idempotencyKey", i.key, k)));
  }

  // ----- Reading JSON strings -----

  function HexValue(c: char): Option<nat> {
    if '0' <= c <= '9' then Some((c - '0') as nat)
    else if 'a' <= c <= 'f' then Some((c - 'a') as nat + 10)
    else if 'A' <= c <= 'F' then Some((c - 'A') as nat + 10)
    else None
  }

  function HexRead(s: string): Option<nat>
    requires |s| == 4
  {
    var a, b, c, d := HexValue(s[0]), HexValue(s[1]), HexValue(s[2]), HexValue(s[3]);
    if a.Some? && b.Some? && c.Some? && d.Some? then Some(4096 * a.value + 256 * b.value + 16 * c.value + d.value) else None
  }

  /** The character that a two-character escape stands for, by section 7 of RFC 8259. */
  function ShortEscape(c: char): Option<char> {
    if c in ['"', '\\', '/'] then Some(c)
    else if c == 'b' then Some('\U{08}')
    else if c == 'f' then Some('\U{0C}')
    else if c == 'n' then Some('\n')
    else if c == 'r' then Some('\r')
    else if c == 't' then Some('\t')
    else None
  }

  /** The first character of the content of a JSON string and what follows it. */
  function ReadChar(s: string): Option<(char, string)> {
    if s == "" || s[0] == '"' || s[0] < ' ' then None
    else if s[0] != '\\' then Some((s[0], s[1..]))
    else if |s| < 2 then None
    else if s[1] != 'u' then
      var c := ShortEscape(s[1]);
      if c.Some? then Some((c.value, s[2..])) else None
    else if |s| < 6 then None
    else
      var n := HexRead(s[2..6]);
      if n.Some? && n.value < 0xD800 then Some((n.value as char, s[6..])) else None
  }

  /** The content of a JSON string after its opening quote, and the text after its closing quote. */
  function ReadString(s: string): Option<(string, string)>
    decreases |s|
  {
    if s != "" && s[0] == '"' then Some(("", s[1..]))
    else
      match ReadChar(s)
      case None => None
      case Some((c, rest)) =>
        if |rest| >= |s| then None
        else
          match ReadString(rest)
          case None => None
          case Some((content, after)) => Some(([c] + content, after))
  }

  lemma HexReadsBack(n: nat)
    requires n < 0x10000
    ensures HexRead(Hex4(n)) == Some(n)
  {
    var a, b, c, d := n / 4096, n / 256 % 16, n / 16 % 16, n % 16;
    assert Hex4(n) == [HexDigit(a), HexDigit(b), HexDigit(c), HexDigit(d)];
    assert n == 4096 * a + 256 * b + 16 * c + d by { Nibbles(n); }
    hide HexRead, HexDigit, Hex4;
    DigitsReadBack(a, b, c, d);
  }

  lemma DigitsReadBack(a: nat, b: nat, c: nat, d: nat)
    requires a < 16 && b < 16 && c < 16 && d < 16
    ensures HexRead([HexDigit(a), HexDigit(b), HexDigit(c), HexDigit(d)]) == Some(4096 * a + 256 * b + 16 * c + d)
  {
    DigitReadsBack(a);
    DigitReadsBack(b);
    DigitReadsBack(c);
    DigitReadsBack(d);
    hide HexValue, HexDigit;
  }

  lemma DigitReadsBack(d: nat)
    requires d < 16
    ensures HexValue(HexDigit(d)) == Some(d)
  {}

  lemma EscapeReadsBack(c: char, rest: string)
    ensures ReadChar(Escape(c) + rest) == Some((c, rest))
  {
    var s := Escape(c) + rest;
    assert s[0] == Escape(c)[0];
    if LongEscape(c) {
      assert s[1] == 'u' && s[2..6] == Hex4(c as nat) && s[6..] == rest;
      HexReadsBack(c as nat);
    } else if |Escape(c)| == 2 {
      assert s[1] == Escape(c)[1] && s[2..] == rest;
    } else {
      assert s[1..] == rest;
    }
  }

  /** A JSON reader gets back every string that was quoted, and the text after it. */
  lemma {:induction false} QuoteReadsBack(s: string, rest: string)
    ensures (Quote(s) + rest)[0] == '"' && ReadString((Quote(s) + rest)[1..]) == Some((s, rest))
  {
    QuoteOpens(s, rest);
    ClosingReadsBack(s, rest);
    hide Closing, ReadString;
    assert (Quote(s) + rest)[0] == '"';
  }

  lemma {:induction false} ClosingReadsBack(s: string, rest: string)
    ensures ReadString(Closing(s, rest)) == Some((s, rest))
  {
    if s == "" {
      assert (['"'] + rest)[1..] == rest;
    } else {
      ClosingReadsBack(s[1..], rest);
      EscapeReadsBack(s[0], Closing(s[1..], rest));
      EscapeStarts(s[0], Closing(s[1..], rest), "");
      assert Closing(s, rest)[0] == Escape(s[0])[0] != '"';
      assert s == [s[0]] + s[1..];
    }
  }

  // ----- The builders -----

  /** Fields separated by commas; a leading comma when the object already holds one. */
  function FieldsText(fields: seq<(string, string)>, comma: bool, rest: string): string {
    if fields == [] then rest
    else
      var tail := FieldsText(fields[1..], true, rest);
      if comma then Next(fields[0].0, fields[0].1, tail) else First(fields[0].0, fields[0].1, tail)
  }

  /** `writeJSONField` and `writeField`. */
  method WriteField(builder: string, name: string, value: string, ghost rest: string) returns (r: string)
    ensures r + rest == builder + First(name, value, rest)
  {
    r := builder + Key(name) + Quote(value);
  }

  /** The loops over field lists that both builders run. Whatever is appended later follows the
      fields. */
  method WriteFields(builder: string, fields: seq<(string, string)>, comma: bool, ghost rest: string)
    returns (r: string)
    ensures r + rest == builder + FieldsText(fields, comma, rest)
  {
    r := builder;
    for i := 0 to |fields|
      invariant r + FieldsText(fields[i..], comma || i > 0, rest) == builder + FieldsText(fields, comma, rest)
    {
      ghost var tail := FieldsText(fields[i + 1..], true, rest);
      assert fields[i..][1..] == fields[i + 1..];
      ghost var was := r;
      if comma || i > 0 {
        r := r + ",";
        assert r + First(fields[i].0, fields[i].1, tail) == was + Next(fields[i].0, fields[i].1, tail);
      }
      r := WriteField(r, fields[i].0, fields[i].1, tail);
    }
  }

  lemma MoneyJoins(builder: string, p: string, q: string, rest: string)
    ensures builder + ",\"money\":{\"amount\":" + p + ",\"currency\":" + q + "}" + rest
            == builder + (",\"money\":{\"amount\":" + (p + (",\"currency\":" + (q + ("}" + rest)))))
  {
    var u := q + ("}" + rest);
    assert q + "}" + rest == u;
    var v := p + (",\"currency\":" + u);
    assert p + ",\"currency\":" + u == v;
    var m := ",\"money\":{\"amount\":";
    assert builder + m + v == builder + (m + v);
    assert builder + m + p + ",\"currency\":" + q + "}" + rest == builder + m + (p + ",\"currency\":" + u);
  }

  /** The money object that both builders write the same way. */
  method WriteMoney(builder: string, amount: Money, ghost rest: string) returns (r: string)
    ensures r + rest == builder + MoneyText(amount, rest)
  {
    hide Quote, Decimal.Print;
    var p, q := Quote(Decimal.Print(amount)), Quote(amount.currency.code);
    r := builder + ",\"money\":{\"amount\":" + p + ",\"currency\":" + q + "}";
    MoneyJoins(builder, p, q, rest);
  }

  lemma TwoFields(f: (string, string), g: (string, string), rest: string)
    ensures FieldsText([f, g], true, rest) == Next(f.0, f.1, Next(g.0, g.1, rest))
  {
    assert [f, g][1..] == [g] && [g][1..] == [];
    assert FieldsText([g], true, rest) == Next(g.0, g.1, rest);
  }

  lemma ThreeFields(f: (string, string), g: (string, string), h: (string, string), comma: bool, rest: string)
    ensures FieldsText([f, g, h], comma, rest)
            == if comma then Next(f.0, f.1, Next(g.0, g.1, Next(h.0, h.1, rest)))
               else First(f.0, f.1, Next(g.0, g.1, Next(h.0, h.1, rest)))
  {
    assert [f, g, h][1..] == [g, h];
    TwoFields(g, h, rest);
  }

  method WriteReference(builder: string, reference: string, ghost rest: string) returns (r: string)
    ensures r + rest == builder + ReferenceText(reference, rest)
  {
    r := builder;
    if reference != "" {
      r := r + ",";
      ghost var field := First("referenceExternalTransactionId", reference, rest);
      assert r + field == builder + ("," + field);
      r := WriteField(r, "referenceExternalTransactionId", reference, rest);
    }
  }

  method WriteWallet(builder: string, input: Input, ghost rest: string) returns (r: string)
    ensures r + rest == builder + WalletText(input, rest)
  {
    TwoFields(("roundId", input.round), ("walletId", input.wallet), "}" + rest);
    r := WriteFields(builder, [("roundId", input.round), ("walletId", input.wallet)], true, "}" + rest);
    assert r + "}" + rest == r + ("}" + rest);
    r := r + "}";
  }

  /** The part that both texts share, from the money object to the wallet. */
  method WriteShared(builder: string, input: Input, ghost rest: string) returns (r: string)
    ensures r + rest == builder + PlayerText(input, rest)
  {
    ghost var reference := ReferenceText(input.reference, WalletText(input, rest));
    TwoFields(("playerId", input.player), ("providerId", input.provider), reference);
    r := WriteMoney(builder, input.amount, FieldsText([("playerId", input.player), ("providerId", input.provider)], true, reference));
    r := WriteFields(r, [("playerId", input.player), ("providerId", input.provider)], true, reference);
    r := WriteReference(r, input.reference, WalletText(input, rest));
    r := WriteWallet(r, input, rest);
  }

  /** `canonicalPayload`. */
  method CanonicalPayload(input: Input) returns (payload: string)
    ensures payload == Canonical(input)
  {
    var fields := [("externalTransactionId", input.external), ("gameId", input.game), ("kind", KindName(input.kind))];
    ThreeFields(fields[0], fields[1], fields[2], false, PlayerText(input, ""));
    payload := WriteFields("{", fields, false, PlayerText(input, ""));
    payload := WriteShared(payload, input, "");
    assert payload + "" == payload;
  }

  /** `canonicalEnvelope`. */
  method CanonicalMessage(e: Envelope) returns (text: string)
    ensures text == CanonicalEnvelope(e)
  {
    var i := e.input;
    ghost var rest := PlayerText(i, MessageText(e));
    var fields := [("gameId", i.game), ("idempotencyKey", i.key), ("kind", KindName(i.kind))];
    ThreeFields(fields[0], fields[1], fields[2], true, rest);
    var all := [("externalTransactionId", i.external)] + fields;
    assert all[1..] == fields;
    text := WriteFields("{\"data\":{", all, false, rest);
    text := WriteShared(text, i, MessageText(e));
    ThreeFields(("messageId", e.id), ("occurredAt", e.occurredAt), ("type", e.kind), true, "}");
    text := WriteFields(text, [("messageId", e.id), ("occurredAt", e.occurredAt), ("type", e.kind)], true, "}");
    text := text + "}";
  }
}
