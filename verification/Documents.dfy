/** The persisted documents and the rules `Store::open` checks them by. */
module Documents {
  import opened Wrappers
  import opened Bytes

  const MAX_HOSTS := 32
  const MAX_KEY := 8190
  const MAX_NAME := 128

  datatype PortMode = Random | Fixed

  datatype Config = Config(
    enabled: bool,
    portMode: PortMode,
    fixedPort: uint16,
    allowAdbRoot: bool,
    allowShellRoot: bool)
  {
    predicate Valid()
    {
      fixedPort >= 1024
    }
  }

  datatype Host = Host(
    fingerprint: string,
    publicKey: string,
    name: string,
    pairedAt: nat,
    lastConnected: Option<nat>)

  datatype Doc = ConfigDoc(config: Config) | HostsDoc(hosts: seq<Host>) | IdentityDoc(guid: string)

  /** The certificate library's fingerprint of an encoded Android RSA key. It refuses an empty key. */
  type Fingerprinter = f: string -> Option<string> | f("") == None witness (s: string) => None

  /** `char::is_whitespace`. */
  predicate IsWhitespace(c: char)
  {
    var n := c as int;
    || 0x9 <= n <= 0xD || n == 0x20 || n == 0x85 || n == 0xA0 || n == 0x1680 || 0x2000 <= n <= 0x200A
    || n == 0x2028 || n == 0x2029 || n == 0x202F || n == 0x205F || n == 0x3000
  }

  /** `char::is_control`. */
  predicate IsControl(c: char)
  {
    c as int <= 0x1F || 0x7F <= c as int <= 0x9F
  }

  /** Length of a string in UTF-8 bytes, as `str::len` counts. */
  function Utf8Length(s: string): nat
  {
    if s == [] then 0
    else
      var n := s[0] as int;
      (if n < 0x80 then 1 else if n < 0x800 then 2 else if n < 0x1_0000 then 3 else 4) + Utf8Length(s[1..])
  }

  /** The text up to the first whitespace, as `splitn(2, char::is_whitespace)` cuts it. */
  function FirstField(s: string): string
  {
    if s == [] || IsWhitespace(s[0]) then [] else [s[0]] + FirstField(s[1..])
  }

  /** The text after the first whitespace, if there is one. */
  function Comment(s: string): Option<string>
  {
    if s == [] then None else if IsWhitespace(s[0]) then Some(s[1..]) else Comment(s[1..])
  }

  /** `split_whitespace().next().unwrap_or_default()`: leading whitespace is skipped. */
  function FirstWord(s: string): string
  {
    if s != [] && IsWhitespace(s[0]) then FirstWord(s[1..]) else FirstField(s)
  }

  function DisplayName(s: string): string
  {
    var kept := Printable(s);
    if |kept| <= MAX_NAME then kept else kept[..MAX_NAME]
  }

  function Printable(s: string): string
  {
    if s == [] then [] else (if IsControl(s[0]) then [] else [s[0]]) + Printable(s[1..])
  }

  /** `crypto::host_key`: fingerprint and display name of a host's public key line. */
  function HostKey(key: string, fp: Fingerprinter): Option<(string, string)>
  {
    if Utf8Length(key) > MAX_KEY || '\0' in key then None
    else
      match fp(FirstField(key))
      case None => None
      case Some(f) => Some((f, DisplayName(match Comment(key) case Some(c) => c case None => "Computer")))
  }

  /** The checks of `Store::open` on a host list. */
  ghost predicate AcceptsHosts(hosts: seq<Host>, fp: Fingerprinter)
  {
    && |hosts| <= MAX_HOSTS
    && forall i | 0 <= i < |hosts| ::
         HostKey(hosts[i].publicKey, fp).Some? && HostKey(hosts[i].publicKey, fp).value.0 == hosts[i].fingerprint
  }

  /** What the store keeps beyond what it checks: one entry per fingerprint. */
  ghost predicate DistinctHosts(hosts: seq<Host>)
  {
    forall i, j | 0 <= i < j < |hosts| :: hosts[i].fingerprint != hosts[j].fingerprint
  }

  predicate Knows(hosts: seq<Host>, f: string)
  {
    exists i | 0 <= i < |hosts| :: hosts[i].fingerprint == f
  }

  // ---------------------------------------------------------------------------------------------
  // Changes of the host list

  /** The list `Store::pair` writes, or `None` when it refuses. */
  function PairHosts(hosts: seq<Host>, key: string, now: nat, fp: Fingerprinter): Option<seq<Host>>
  {
    match HostKey(key, fp)
    case None => None
    case Some((f, name)) =>
      if Knows(hosts, f) then Some(hosts)
      else if |hosts| >= MAX_HOSTS then None
      else Some(hosts + [Host(f, FirstWord(key), name, now, None)])
  }

  /** The list `Store::revoke` writes. */
  function RevokeHosts(hosts: seq<Host>, f: string): seq<Host>
  {
    if hosts == [] then []
    else RevokeHosts(hosts[..|hosts| - 1], f) +
         if hosts[|hosts| - 1].fingerprint == f then [] else [hosts[|hosts| - 1]]
  }

  /** The list `Store::connected` writes: the first entry with this fingerprint gets a new time. */
  function ConnectHosts(hosts: seq<Host>, f: string, now: nat): Option<seq<Host>>
  {
    if hosts == [] then None
    else if hosts[0].fingerprint == f then Some([hosts[0].(lastConnected := Some(now))] + hosts[1..])
    else
      match ConnectHosts(hosts[1..], f, now)
      case None => None
      case Some(rest) => Some([hosts[0]] + rest)
  }

  lemma {:induction false} FirstFieldProperties(s: string)
    ensures Utf8Length(FirstField(s)) <= Utf8Length(s)
    ensures '\0' !in s ==> '\0' !in FirstField(s)
    ensures FirstField(FirstField(s)) == FirstField(s)
    ensures FirstField(s) != [] ==> FirstWord(s) == FirstField(s)
  {
    if s != [] && !IsWhitespace(s[0]) {
      FirstFieldProperties(s[1..]);
      var t := FirstField(s);
      assert t[0] == s[0] && t[1..] == FirstField(s[1..]);
    }
  }

  /** A stored key is read back with the fingerprint it was stored under: dropping the comment and any leading
      whitespace changes nothing `host_key` looks at. */
  lemma StoredKeyKeepsFingerprint(key: string, fp: Fingerprinter)
    requires HostKey(key, fp).Some?
    ensures HostKey(FirstWord(key), fp).Some?
    ensures HostKey(FirstWord(key), fp).value.0 == HostKey(key, fp).value.0
  {
    FirstFieldProperties(key);
  }

  /** Pairing trusts the host of the key, keeps every host in place and produces a list `open` accepts. */
  lemma PairingIsSound(hosts: seq<Host>, key: string, now: nat, fp: Fingerprinter)
    requires AcceptsHosts(hosts, fp)
    ensures PairHosts(hosts, key, now, fp).Some? <==>
            HostKey(key, fp).Some? && (Knows(hosts, HostKey(key, fp).value.0) || |hosts| < MAX_HOSTS)
    ensures PairHosts(hosts, key, now, fp).Some? ==>
              var after := PairHosts(hosts, key, now, fp).value;
              && AcceptsHosts(after, fp)
              && hosts <= after && |after| <= |hosts| + 1
              && (DistinctHosts(hosts) ==> DistinctHosts(after))
              && forall f :: Knows(after, f) <==> Knows(hosts, f) || f == HostKey(key, fp).value.0
  {
    if PairHosts(hosts, key, now, fp).Some? {
      StoredKeyKeepsFingerprint(key, fp);
      var after := PairHosts(hosts, key, now, fp).value;
      var g := HostKey(key, fp).value.0;
      forall f
        ensures Knows(after, f) <==> Knows(hosts, f) || f == g
      {
        if Knows(hosts, f) {
          var i :| 0 <= i < |hosts| && hosts[i].fingerprint == f;
          assert after[i].fingerprint == f;
        }
        if f == g && after != hosts {
          assert after[|hosts|].fingerprint == f;
        }
      }
    }
  }

  lemma {:induction false} CutAtFirstSpace(word: string, rest: string)
    requires forall c | c in word :: !IsWhitespace(c)
    requires rest != [] ==> IsWhitespace(rest[0])
    ensures FirstField(word + rest) == word
    ensures Comment(word + rest) == if rest == [] then None else Some(rest[1..])
    ensures word != [] ==> FirstWord(word + rest) == word
  {
    if word == [] {
      assert word + rest == rest;
    } else {
      assert (word + rest)[1..] == word[1..] + rest;
      assert word[0] in word;
      CutAtFirstSpace(word[1..], rest);
    }
  }

  lemma {:induction false} PrintableParts(a: string, b: string)
    ensures Printable(a + b) == Printable(a) + Printable(b)
    ensures forall c | c in Printable(a) :: c in a && !IsControl(c)
    ensures (forall c | c in a :: !IsControl(c)) ==> Printable(a) == a
  {
    if a == [] {
      assert a + b == b;
    } else {
      assert (a + b)[1..] == a[1..] + b;
      PrintableParts(a[1..], b);
    }
  }

  /** Control characters do not count for a name; of the others it has the first 128, in order. */
  lemma NameIsCutComment(a: string, b: string, c: char)
    requires forall d | d in a + b :: !IsControl(d)
    ensures DisplayName(a + b) == if |a + b| <= 128 then a + b else (a + b)[..128]
    ensures IsControl(c) ==> DisplayName(a + [c] + b) == DisplayName(a + b)
  {
    PrintableParts(a + b, []);
    PrintableParts(a, b);
    PrintableParts(a, [c]);
    PrintableParts(a + [c], b);
    assert IsControl(c) ==> Printable([c]) == [];
    assert Printable(a) + [] == Printable(a);
  }

  /** A new host is listed last, under the fingerprint of the key's first word, with that word alone as its key, a
      printable name of at most 128 characters from what follows, the time of its pairing and no connection. A key of
      more than 8190 octets, with a zero, or that is no key is refused, and so is a thirty-third host. */
  lemma NewHostIsAsOffered(hosts: seq<Host>, word: string, rest: string, now: nat, fp: Fingerprinter)
    requires forall c | c in word :: !IsWhitespace(c)
    requires rest != [] ==> IsWhitespace(rest[0])
    requires fp(word).Some? ==> !Knows(hosts, fp(word).value)
    ensures var r := PairHosts(hosts, word + rest, now, fp);
            && (r.Some? <==>
                  Utf8Length(word + rest) <= 8190 && '\0' !in word + rest && fp(word).Some? && |hosts| < 32)
            && (r.Some? ==>
                  && |r.value| == |hosts| + 1 && r.value[..|hosts|] == hosts
                  && var h := r.value[|hosts|];
                     && h.fingerprint == fp(word).value && h.publicKey == word
                     && h.name == (if rest == [] then "Computer" else DisplayName(rest[1..]))
                     && h.pairedAt == now && h.lastConnected == None)
  {
    hide FirstField, Comment, FirstWord, Knows, Utf8Length, DisplayName;
    CutAtFirstSpace(word, rest);
    assert fp(word).Some? ==> word != [];
    PlainComputer();
  }

  lemma PlainComputer()
    ensures DisplayName("Computer") == "Computer"
  {
    PrintableParts("Computer", []);
  }

  /** Revoking removes exactly the entries with that fingerprint and keeps the others in order. */
  lemma {:induction false} RevokingIsExact(hosts: seq<Host>, f: string)
    ensures var after := RevokeHosts(hosts, f);
            && |after| <= |hosts|
            && (forall h :: h in after <==> h in hosts && h.fingerprint != f)
            && (forall g :: Knows(after, g) <==> Knows(hosts, g) && g != f)
            && (DistinctHosts(hosts) ==> DistinctHosts(after))
            && (!Knows(hosts, f) ==> after == hosts)
  {
    if hosts != [] {
      hide Knows;
      var init, last := hosts[..|hosts| - 1], hosts[|hosts| - 1];
      assert hosts == init + [last];
      RevokingIsExact(init, f);
      var before, after := RevokeHosts(init, f), RevokeHosts(hosts, f);
      forall g
        ensures Knows(hosts, g) <==> Knows(init, g) || last.fingerprint == g
        ensures Knows(after, g) <==> Knows(before, g) || (last.fingerprint == g && g != f)
      {
        KnowsPush(init, last, g);
        KnowsPush(before, last, g);
        assert before + [] == before;
      }
      if DistinctHosts(hosts) && last.fingerprint != f {
        forall i | 0 <= i < |before|
          ensures before[i].fingerprint != last.fingerprint
        {
          assert before[i] in before && before[i] in init;
        }
      }
    }
  }

  lemma KnowsPush(hosts: seq<Host>, h: Host, f: string)
    ensures Knows(hosts + [h], f) <==> Knows(hosts, f) || h.fingerprint == f
  {
    var all := hosts + [h];
    if Knows(hosts, f) {
      var i :| 0 <= i < |hosts| && hosts[i].fingerprint == f;
      assert all[i].fingerprint == f;
    }
    if h.fingerprint == f {
      assert all[|hosts|].fingerprint == f;
    }
  }

  lemma RevokeAccepted(hosts: seq<Host>, f: string, fp: Fingerprinter)
    requires AcceptsHosts(hosts, fp)
    ensures AcceptsHosts(RevokeHosts(hosts, f), fp)
  {
    RevokingIsExact(hosts, f);
    var after := RevokeHosts(hosts, f);
    forall i | 0 <= i < |after|
      ensures HostKey(after[i].publicKey, fp).Some? && HostKey(after[i].publicKey, fp).value.0 == after[i].fingerprint
    {
      assert after[i] in after && after[i] in hosts;
    }
  }

  /** Recording a connection succeeds exactly for a known host and changes nothing but one time. */
  lemma {:induction false} ConnectingTouchesOneTime(hosts: seq<Host>, f: string, now: nat)
    ensures ConnectHosts(hosts, f, now).Some? <==> Knows(hosts, f)
    ensures Knows(hosts, f) ==>
              var after := ConnectHosts(hosts, f, now).value;
              && |after| == |hosts|
              && exists i | 0 <= i < |hosts| ::
                   hosts[i].fingerprint == f && (forall j | 0 <= j < i :: hosts[j].fingerprint != f)
                   && after == hosts[i := hosts[i].(lastConnected := Some(now))]
  {
    if hosts != [] {
      assert hosts == [hosts[0]] + hosts[1..];
      KnowsFirst(hosts, f);
      if hosts[0].fingerprint == f {
        assert ConnectHosts(hosts, f, now).value == hosts[0 := hosts[0].(lastConnected := Some(now))];
      } else {
        ConnectingTouchesOneTime(hosts[1..], f, now);
        hide Knows;
        if Knows(hosts[1..], f) {
          var rest := hosts[1..];
          var i :| 0 <= i < |rest| && rest[i].fingerprint == f && (forall j | 0 <= j < i :: rest[j].fingerprint != f)
                   && ConnectHosts(rest, f, now).value == rest[i := rest[i].(lastConnected := Some(now))];
          LaterMatch(hosts, f, now, i);
        }
      }
    }
  }

  /** The first match in the rest of a list is the first match if the head is none. */
  lemma LaterMatch(hosts: seq<Host>, f: string, now: nat, i: nat)
    requires i < |hosts| - 1 && hosts[0].fingerprint != f
    requires var rest := hosts[1..];
             && rest[i].fingerprint == f && (forall j | 0 <= j < i :: rest[j].fingerprint != f)
             && ConnectHosts(rest, f, now) == Some(rest[i := rest[i].(lastConnected := Some(now))])
    ensures hosts[i + 1].fingerprint == f && forall j | 0 <= j < i + 1 :: hosts[j].fingerprint != f
    ensures ConnectHosts(hosts, f, now) == Some(hosts[i + 1 := hosts[i + 1].(lastConnected := Some(now))])
  {
    var rest := hosts[1..];
    assert forall j | 0 <= j < i + 1 :: j == 0 || hosts[j] == rest[j - 1];
    assert [hosts[0]] + rest[i := rest[i].(lastConnected := Some(now))]
        == hosts[i + 1 := hosts[i + 1].(lastConnected := Some(now))];
  }

  lemma KnowsFirst(hosts: seq<Host>, f: string)
    requires hosts != []
    ensures Knows(hosts, f) <==> hosts[0].fingerprint == f || Knows(hosts[1..], f)
  {
    if Knows(hosts[1..], f) {
      var i :| 0 <= i < |hosts[1..]| && hosts[1..][i].fingerprint == f;
      assert hosts[i + 1].fingerprint == f;
    }
    if Knows(hosts, f) {
      var i :| 0 <= i < |hosts| && hosts[i].fingerprint == f;
      assert i == 0 || hosts[1..][i - 1].fingerprint == f;
    }
  }

  lemma ConnectAccepted(hosts: seq<Host>, f: string, now: nat, fp: Fingerprinter)
    requires AcceptsHosts(hosts, fp) && ConnectHosts(hosts, f, now).Some?
    ensures var after := ConnectHosts(hosts, f, now).value;
            && AcceptsHosts(after, fp) && |after| == |hosts|
            && forall i | 0 <= i < |hosts| :: after[i].fingerprint == hosts[i].fingerprint
  {
    ConnectingTouchesOneTime(hosts, f, now);
  }

  lemma ConnectKnows(hosts: seq<Host>, f: string, now: nat, g: string)
    requires ConnectHosts(hosts, f, now).Some?
    ensures Knows(ConnectHosts(hosts, f, now).value, g) <==> Knows(hosts, g)
    ensures Knows(hosts, f)
  {
    ConnectingTouchesOneTime(hosts, f, now);
    var after := ConnectHosts(hosts, f, now).value;
    if Knows(hosts, g) {
      var i :| 0 <= i < |hosts| && hosts[i].fingerprint == g;
      assert after[i].fingerprint == g;
    }
  }
}
