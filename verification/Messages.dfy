/** The messages of the wire protocol, after parsing (module Wire justifies the typed form), and the
    checks on display names. */
module Messages {
  import opened Playback

  const PROTOCOL_VERSION := 2
  const MAX_PEERS := 8

  /** A client id is "c-" and four hexadecimal digits. */
  type ClientId = i: int | 0 <= i < 0x1_0000

  datatype Role = Controller | Observer

  datatype Peer = Peer(id: ClientId, name: string, role: Role)

  datatype ErrorCode = BadMessage | NotController | ControlTaken | RateLimited

  /** Client to server. `Malformed` is any frame that is JSON but no message of the protocol. */
  datatype Up =
    | Hello(version: Option<int>, name: string, room: string)
    | ClaimControl
    | ReleaseControl
    | DeltaUp(delta: Delta)
    | RequestSnapshot
    | Malformed

  /** Server to client. */
  datatype Down =
    | Welcome(id: ClientId, role: Role, serverSeq: nat, decks: map<DeckId, Deck>, peers: seq<Peer>)
    | DeltaDown(serverSeq: nat, source: ClientId, delta: Delta)
    | Snapshot(serverSeq: nat, decks: map<DeckId, Deck>)
    | RoleChanged(id: ClientId, role: Role)
    | PeerJoined(peer: Peer)
    | PeerLeft(id: ClientId)
    | ErrorDown(code: ErrorCode)

  // ---------------------------------------------------------------- display names

  predicate ControlChar(c: char) {
    var n := c as int; n <= 0x1F || 0x7F <= n <= 0x9F
  }

  /** Unicode general category Cf. */
  predicate FormatChar(c: char) {
    var n := c as int;
    || n == 0xAD || 0x600 <= n <= 0x605 || n == 0x61C || n == 0x6DD || n == 0x70F
    || 0x890 <= n <= 0x891 || n == 0x8E2 || n == 0x180E || 0x200B <= n <= 0x200F
    || 0x202A <= n <= 0x202E || 0x2060 <= n <= 0x2064 || 0x2066 <= n <= 0x206F || n == 0xFEFF
    || 0xFFF9 <= n <= 0xFFFB || n == 0x110BD || n == 0x110CD || 0x13430 <= n <= 0x1343F
    || 0x1BCA0 <= n <= 0x1BCA3 || 0x1D173 <= n <= 0x1D17A || n == 0xE0001
    || 0xE0020 <= n <= 0xE007F
  }

  /** Length as the server counts it: a character beyond the basic plane takes two units. */
  function Utf16Length(s: string): (n: nat)
    ensures |s| <= n
  {
    if s == [] then 0 else (if s[0] as int < 0x1_0000 then 1 else 2) + Utf16Length(s[1..])
  }

  predicate ServerAcceptsName(s: string) {
    1 <= Utf16Length(s) <= 32 && forall i :: 0 <= i < |s| ==> !ControlChar(s[i]) && !FormatChar(s[i])
  }

  predicate ClientAcceptsName(s: string) {
    1 <= |s| <= 32 && forall i :: 0 <= i < |s| ==> !ControlChar(s[i])
  }

  /** No name the server lets in is dropped from a client's peer list. */
  lemma AdmittedNamesAreShown(s: string)
    requires ServerAcceptsName(s)
    ensures ClientAcceptsName(s)
  {}

  lemma {:induction false} Utf16Snoc(s: string, c: char)
    ensures Utf16Length(s + [c]) == Utf16Length(s) + if c as int <= 0xFFFF then 1 else 2
  {
    if s == [] {
      assert ([] + [c])[1..] == [];
    } else {
      assert (s + [c])[0] == s[0] && (s + [c])[1..] == s[1..] + [c];
      Utf16Snoc(s[1..], c);
    }
  }

  lemma {:induction false} BasicLength(s: string)
    requires forall i :: 0 <= i < |s| ==> s[i] as int <= 0xFFFF
    ensures Utf16Length(s) == |s|
  {
    if s != [] { BasicLength(s[1..]); }
  }

  /** Every name of up to thirty-two printable ASCII characters is good for both ends. */
  lemma PlainNamesAreGood(s: string)
    requires 1 <= |s| <= 32 && forall i :: 0 <= i < |s| ==> ' ' <= s[i] <= '~'
    ensures ServerAcceptsName(s) && ClientAcceptsName(s)
  {
    BasicLength(s);
  }

  /** A name the server admits fits thirty-two UTF-16 units, and hides nothing: no line break, no delete, no zero-width
      character and no change of direction. */
  lemma AdmittedNamesHideNothing(s: string, c: char)
    requires ServerAcceptsName(s) && c in s
    ensures Utf16Length(s) <= 32
    ensures c !in ['\n', '\r', '\0', '\U{7F}', '\U{85}', '\U{AD}',
                  '\U{200B}', '\U{200F}', '\U{202E}', '\U{2066}', '\U{FEFF}']
  {
    var i :| 0 <= i < |s| && s[i] == c;
  }

  /** What a client shows of a peer is one line of at most thirty-two characters. */
  lemma ShownNamesAreOneLine(s: string, c: char)
    requires ClientAcceptsName(s) && c in s
    ensures 1 <= |s| <= 32 && c !in ['\n', '\r', '\0', '\t', '\U{7F}', '\U{85}']
  {
    var i :| 0 <= i < |s| && s[i] == c;
  }
}
