/**
 * The list of namespaces to join, as text: the Go side orders and joins the entries, the C side takes the text
 * apart again. What the file system answers is an argument.
 */
module NamespacePaths {
  import opened Wrappers
  import opened Namespaces
  import opened Decimal

  function NsName(t: NsType): string {
    match t
    case NewNet => "net"
    case NewNs => "mnt"
    case NewPid => "pid"
    case NewIpc => "ipc"
    case NewUser => "user"
    case NewUts => "uts"
    case NewCgroup => "cgroup"
    case NewTime => "time"
  }

  /** The flag of a name; an unknown name has none. */
  function NsFlag(name: string): Option<NsType> {
    if name == "cgroup" then Some(NewCgroup)
    else if name == "ipc" then Some(NewIpc)
    else if name == "mnt" then Some(NewNs)
    else if name == "net" then Some(NewNet)
    else if name == "pid" then Some(NewPid)
    else if name == "user" then Some(NewUser)
    else if name == "uts" then Some(NewUts)
    else if name == "time" then Some(NewTime)
    else None
  }

  const TYPES: seq<NsType> := [NewUser, NewIpc, NewUts, NewNet, NewPid, NewNs, NewCgroup, NewTime]

  type Joined = (NsType, string)

  /** What the host says: which namespaces it supports, and which paths exist. */
  datatype Host = Host(supported: set<NsType>, paths: set<string>)

  /** A path with a zero byte in it can not be looked up. */
  predicate Exists(host: Host, path: string) {
    path in host.paths && '\0' !in path
  }

  predicate Accepts(host: Host, e: Joined) {
    e.0 in host.supported && Exists(host, e.1) && ',' !in e.1
  }

  predicate Wants(list: seq<Namespace>, nsMaps: map<NsType, string>, t: NsType) {
    Contains(list, t) && t in nsMaps && nsMaps[t] != ""
  }

  /** The paths by type, a later entry replacing an earlier one. */
  function Paths(list: seq<Namespace>): map<NsType, string> {
    if list == [] then map[]
    else
      var last, rest := list[|list| - 1], Paths(list[..|list| - 1]);
      if last.path == "" then rest else rest[last.kind := last.path]
  }

  method NsMaps(list: seq<Namespace>) returns (nsMaps: map<NsType, string>)
    ensures nsMaps == Paths(list)
  {
    nsMaps := map[];
    for i := 0 to |list|
      invariant nsMaps == Paths(list[..i])
    {
      assert list[..i + 1][..i] == list[..i];
      if list[i].path != "" {
        nsMaps := nsMaps[list[i].kind := list[i].path];
      }
    }
    assert list[..|list|] == list;
  }

  /** Without duplicates, the paths are those of the entries. */
  lemma {:induction false} PathsOf(list: seq<Namespace>, t: NsType)
    requires DuplicateFree(list)
    ensures forall p :: t in Paths(list) && Paths(list)[t] == p <==> p != "" && Namespace(t, p) in list
  {
    if list != [] {
      var n := |list| - 1;
      PathsOf(list[..n], t);
      assert list == list[..n] + [list[n]];
      forall p | Namespace(t, p) in list[..n]
        ensures list[n].kind != t
      {
        var i :| 0 <= i < n && list[i] == Namespace(t, p);
      }
    }
  }

  /** Without duplicates, the entries to join are exactly those with a path. */
  lemma WantedAreEntriesWithPath(list: seq<Namespace>)
    requires DuplicateFree(list)
    ensures forall t, p :: (t, p) in Wanted(list, Paths(list), TYPES) <==> p != "" && Namespace(t, p) in list
  {
    hide Wanted, Paths;
    UserNamespaceFirst(list, Paths(list));
    forall t, p
      ensures (t, p) in Wanted(list, Paths(list), TYPES) <==> p != "" && Namespace(t, p) in list
    {
      PathsOf(list, t);
      if p != "" && Namespace(t, p) in list {
        assert Contains(list, t);
      }
    }
  }

  /** The entries to join among `types`. */
  function Wanted(list: seq<Namespace>, nsMaps: map<NsType, string>, types: seq<NsType>): seq<Joined> {
    if types == [] then []
    else
      var first := if Wants(list, nsMaps, types[0]) then [(types[0], nsMaps[types[0]])] else [];
      first + Wanted(list, nsMaps, types[1..])
  }

  function Entry(e: Joined): string {
    NsName(e.0) + (":" + e.1)
  }

  function Entries(es: seq<Joined>): seq<string> {
    if es == [] then [] else [Entry(es[0])] + Entries(es[1..])
  }

  lemma {:induction false} WantedSnoc(list: seq<Namespace>, nsMaps: map<NsType, string>, types: seq<NsType>, t: NsType)
    ensures Wanted(list, nsMaps, types + [t]) ==
            Wanted(list, nsMaps, types) + (if Wants(list, nsMaps, t) then [(t, nsMaps[t])] else [])
  {
    if types == [] {
      assert types + [t] == [t];
      assert [t][1..] == [];
    } else {
      assert (types + [t])[1..] == types[1..] + [t];
      WantedSnoc(list, nsMaps, types[1..], t);
    }
  }

  lemma {:induction false} EntriesSnoc(es: seq<Joined>, e: Joined)
    ensures Entries(es + [e]) == Entries(es) + [Entry(e)]
  {
    if es == [] {
      assert es + [e] == [e];
    } else {
      assert (es + [e])[1..] == es[1..] + [e];
      EntriesSnoc(es[1..], e);
    }
  }

  /** Fails exactly when some entry to join is not acceptable; otherwise lists them all, in the fixed order of types. */
  method OrderNamespacePaths(host: Host, list: seq<Namespace>, nsMaps: map<NsType, string>)
    returns (r: Option<seq<string>>)
    ensures r.None? <==> exists e <- Wanted(list, nsMaps, TYPES) :: !Accepts(host, e)
    ensures r.Some? ==> r.value == Entries(Wanted(list, nsMaps, TYPES))
  {
    hide NsName, Contains;
    var paths := [];
    ghost var es: seq<Joined> := [];
    for i := 0 to |TYPES|
      invariant es == Wanted(list, nsMaps, TYPES[..i]) && paths == Entries(es)
      invariant forall e <- es :: Accepts(host, e)
    {
      var t := TYPES[i];
      WantedSnoc(list, nsMaps, TYPES[..i], t);
      assert TYPES[..i + 1] == TYPES[..i] + [t];
      if !Contains(list, t) {
        continue;
      }
      if t in nsMaps && nsMaps[t] != "" {
        var p := nsMaps[t];
        if t !in host.supported || !Exists(host, p) || ',' in p {
          WantedAll(list, nsMaps, TYPES, i);
          return None;
        }
        EntriesSnoc(es, (t, p));
        paths := paths + [NsName(t) + (":" + p)];
        es := es + [(t, p)];
      }
    }
    assert TYPES[..|TYPES|] == TYPES;
    return Some(paths);
  }

  lemma {:induction false} WantedAll(list: seq<Namespace>, nsMaps: map<NsType, string>, types: seq<NsType>, i: nat)
    requires i < |types| && Wants(list, nsMaps, types[i])
    ensures (types[i], nsMaps[types[i]]) in Wanted(list, nsMaps, types)
    decreases types
  {
    if i > 0 {
      WantedAll(list, nsMaps, types[1..], i - 1);
    }
  }

  function CommaJoin(parts: seq<string>): string {
    if parts == [] then "" else if |parts| == 1 then parts[0] else parts[0] + ("," + CommaJoin(parts[1..]))
  }

  // ----- the C side -----

  predicate NotComma(c: char) {
    c != ','
  }

  predicate NotColon(c: char) {
    c != ':'
  }

  predicate NotNul(c: char) {
    c != '\0'
  }

  /** The pieces between commas, empty ones skipped. */
  function Tokens(s: string): seq<string>
    decreases |s|
  {
    if s == "" then []
    else if s[0] == ',' then Tokens(s[1..])
    else
      var n := Span(s, NotComma);
      [s[..n]] + Tokens(s[n..])
  }

  /** A piece is cut at its first colon, and its path is opened. */
  function OpenToken(opens: set<string>, token: string): Option<(Option<NsType>, string)> {
    var k := Span(token, NotColon);
    if k == |token| || token[k + 1..] !in opens then None
    else Some((NsFlag(token[..k]), token[k + 1..]))
  }

  function OpenTokens(opens: set<string>, tokens: seq<string>): Option<seq<(Option<NsType>, string)>> {
    if tokens == [] then Some([])
    else
      var first, rest := OpenToken(opens, tokens[0]), OpenTokens(opens, tokens[1..]);
      if first.None? || rest.None? then None else Some([first.value] + rest.value)
  }

  /** The namespaces joined, in order; none when the stage gives up, as it does on a list without pieces. */
  function JoinNamespaces(opens: set<string>, nslist: string): Option<seq<(Option<NsType>, string)>> {
    var tokens := Tokens(nslist[..Span(nslist, NotNul)]);
    if tokens == [] then None else OpenTokens(opens, tokens)
  }

  type Opened = seq<(Option<NsType>, string)>

  /** Namespaces opened already, followed by those of the rest of the list. */
  function Then(done: Opened, rest: Option<Opened>): Option<Opened> {
    if rest.None? then None else Some(done + rest.value)
  }

  lemma TokenStep(opens: set<string>, done: Opened, s: string)
    requires s != "" && s[0] != ','
    ensures var n := Span(s, NotComma);
            var first := OpenToken(opens, s[..n]);
            && Tokens(s) != [] && n > 0
            && Then(done, OpenTokens(opens, Tokens(s))) ==
               if first.None? then None else Then(done + [first.value], OpenTokens(opens, Tokens(s[n..])))
  {
    hide OpenToken;
    var n := Span(s, NotComma);
    assert NotComma(s[0]);
    assert Tokens(s) == [s[..n]] + Tokens(s[n..]);
    assert Tokens(s)[1..] == Tokens(s[n..]);
    var first, rest := OpenToken(opens, s[..n]), OpenTokens(opens, Tokens(s[n..]));
    if first.Some? && rest.Some? {
      assert done + ([first.value] + rest.value) == done + [first.value] + rest.value;
    }
  }

  lemma CommaStep(s: string)
    requires s != "" && s[0] == ','
    ensures Tokens(s) == Tokens(s[1..])
  {
  }

  /** A character of the buffer before and after: only separators are cut. */
  predicate Cut(before: char, after: char) {
    after == before || (after == '\0' && (before == ',' || before == ':'))
  }

  /** Takes the piece that starts at `pos`: it ends before a comma or at the end, and is cut at its first colon. */
  method CutToken(opens: set<string>, buf: array<char>, pos: nat, end: nat)
    returns (n: nat, ns: Option<(Option<NsType>, string)>)
    requires pos < end <= buf.Length
    modifies buf
    ensures n == Span(old(buf[pos..end]), NotComma) && ns == OpenToken(opens, old(buf[pos..end])[..n])
    ensures forall i :: 0 <= i < buf.Length && !(pos <= i <= pos + n) ==> buf[i] == old(buf[i])
    ensures forall i :: 0 <= i < buf.Length ==> Cut(old(buf[i]), buf[i])
  {
    var rest := buf[pos..end];
    n := Span(rest, NotComma);
    var token := rest[..n];
    if pos + n < end {
      assert rest[n] == buf[pos + n];
      buf[pos + n] := '\0';
    }
    var k := Span(token, NotColon);
    if k == |token| {
      return n, None;
    }
    assert token[k] == buf[pos + k];
    buf[pos + k] := '\0';
    ns := OpenToken(opens, token);
  }

  /**
   * The loop over a zero-ended buffer, which it cuts up in place: the comma after each piece and the first colon
   * in it become zeros. Only text that has been passed is cut, so the namespaces found are those of the list as it
   * was. All paths are opened before the first namespace is joined.
   */
  method OpenAll(opens: set<string>, nslist: array<char>) returns (r: Option<Opened>)
    requires exists i :: 0 <= i < nslist.Length && nslist[i] == '\0'
    modifies nslist
    ensures r == JoinNamespaces(opens, old(nslist[..]))
    ensures forall i :: 0 <= i < nslist.Length ==> Cut(old(nslist[i]), nslist[i])
  {
    hide Tokens, OpenTokens, OpenToken;
    var end := Span(nslist[..], NotNul);
    var text := nslist[..end];
    assert text == old(nslist[..])[..end];
    var pos := 0;
    var namespaces: Opened := [];
    StartOf(opens, text);
    while pos < end
      invariant 0 <= pos <= end <= nslist.Length
      invariant nslist[pos..end] == text[pos..]
      invariant forall i :: 0 <= i < nslist.Length ==> Cut(old(nslist[i]), nslist[i])
      invariant OpenTokens(opens, Tokens(text)) == Then(namespaces, OpenTokens(opens, Tokens(text[pos..])))
      invariant Tokens(text) == [] <==> namespaces == [] && Tokens(text[pos..]) == []
      decreases end - pos
    {
      var rest := nslist[pos..end];
      if rest[0] == ',' {
        CommaStep(rest);
        assert rest[1..] == text[pos + 1..];
        pos := pos + 1;
        continue;
      }
      TokenStep(opens, namespaces, rest);
      var n, ns := CutToken(opens, nslist, pos, end);
      assert rest[n..] == text[pos + n..];
      if ns.None? {
        return None;
      }
      namespaces := namespaces + [ns.value];
      if pos + n < end {
        CommaStep(rest[n..]);
        assert rest[n..][1..] == text[pos + n + 1..];
        assert nslist[pos + n + 1..end] == rest[n + 1..];
        pos := pos + n + 1;
      } else {
        pos := end;
      }
    }
    EndOf(opens);
    assert text[pos..] == "" && namespaces + [] == namespaces;
    return if namespaces == [] then None else Some(namespaces);
  }

  lemma StartOf(opens: set<string>, text: string)
    ensures OpenTokens(opens, Tokens(text)) == Then([], OpenTokens(opens, Tokens(text[0..])))
  {
    hide OpenTokens, Tokens;
    assert text[0..] == text;
    var r := OpenTokens(opens, Tokens(text));
    assert r.Some? ==> [] + r.value == r.value;
  }

  lemma EndOf(opens: set<string>)
    ensures Tokens("") == [] && OpenTokens(opens, []) == Some([])
  {
  }

  // ----- round trip -----

  ghost predicate Piece(s: string) {
    s != "" && forall c <- s :: NotComma(c)
  }

  lemma TokensCons(piece: string, rest: string)
    requires Piece(piece) && (rest == "" || rest[0] == ',')
    ensures Tokens(piece + rest) == [piece] + (if rest == "" then [] else Tokens(rest[1..]))
  {
    var s := piece + rest;
    SpanOfPrefix(piece, rest, NotComma);
    assert s[0] == piece[0] && NotComma(s[0]);
    assert Tokens(s) == [piece] + Tokens(rest);
  }

  lemma {:induction false} TokensOfJoin(parts: seq<string>)
    requires forall p <- parts :: Piece(p)
    ensures Tokens(CommaJoin(parts)) == parts
  {
    hide Tokens, Piece;
    if parts == [] {
      NoTokens();
    } else if |parts| == 1 {
      TokensCons(parts[0], "");
      assert parts[0] + "" == parts[0];
    } else {
      var rest := CommaJoin(parts[1..]);
      TokensOfJoin(parts[1..]);
      TokensCons(parts[0], "," + rest);
      assert ("," + rest)[1..] == rest;
    }
  }

  lemma NoTokens()
    ensures Tokens("") == []
  {
  }

  lemma NamesAreClean(t: NsType)
    ensures NsFlag(NsName(t)) == Some(t) && NsName(t) != ""
    ensures forall c <- NsName(t) :: NotComma(c) && NotColon(c) && NotNul(c)
  {
  }

  ghost predicate CleanPath(p: string) {
    ',' !in p && '\0' !in p
  }

  lemma EntryIsPiece(e: Joined)
    requires CleanPath(e.1)
    ensures Piece(Entry(e)) && forall c <- Entry(e) :: NotNul(c)
  {
    hide NsName;
    NamesAreClean(e.0);
  }

  /** The first colon of an entry is the one after the name, also when the path has colons of its own. */
  lemma EntryIsCutRight(opens: set<string>, e: Joined)
    ensures OpenToken(opens, Entry(e)) == if e.1 in opens then Some((Some(e.0), e.1)) else None
  {
    hide NsName, NsFlag;
    NamesAreClean(e.0);
    SpanOfPrefix(NsName(e.0), ":" + e.1, NotColon);
    assert Entry(e)[|NsName(e.0)| + 1..] == e.1;
  }

  function Flagged(es: seq<Joined>): seq<(Option<NsType>, string)> {
    if es == [] then [] else [(Some(es[0].0), es[0].1)] + Flagged(es[1..])
  }

  ghost predicate AllOpen(opens: set<string>, es: seq<Joined>) {
    forall e <- es :: e.1 in opens
  }

  lemma AllOpenCons(opens: set<string>, es: seq<Joined>)
    requires es != []
    ensures AllOpen(opens, es) <==> es[0].1 in opens && AllOpen(opens, es[1..])
  {
    assert es == [es[0]] + es[1..];
  }

  lemma {:induction false} OpenEntries(opens: set<string>, es: seq<Joined>)
    ensures OpenTokens(opens, Entries(es)) == if AllOpen(opens, es) then Some(Flagged(es)) else None
  {
    hide Entry, OpenToken, AllOpen;
    if es == [] {
      assert AllOpen(opens, es) by { NoneIsOpen(opens); }
    } else {
      EntryIsCutRight(opens, es[0]);
      OpenEntries(opens, es[1..]);
      AllOpenCons(opens, es);
      assert Entries(es)[1..] == Entries(es[1..]);
    }
  }

  lemma NoneIsOpen(opens: set<string>)
    ensures AllOpen(opens, [])
  {
  }

  lemma {:induction false} EntriesAreClean(es: seq<Joined>)
    requires forall e <- es :: CleanPath(e.1)
    ensures forall p <- Entries(es) :: Piece(p)
    ensures forall c <- CommaJoin(Entries(es)) :: NotNul(c)
  {
    hide Entry, Piece, CleanPath;
    if es != [] {
      EntryIsPiece(es[0]);
      EntriesAreClean(es[1..]);
      assert Entries(es)[1..] == Entries(es[1..]);
    }
  }

  /**
   * The C side joins exactly the entries that the Go side accepted, each with its own type and whole path and in
   * the same order, provided it can open every path. A list without entries makes it give up.
   */
  lemma ListRoundTrip(host: Host, opens: set<string>, es: seq<Joined>)
    requires forall e <- es :: Accepts(host, e)
    ensures JoinNamespaces(opens, CommaJoin(Entries(es)) + "\0") ==
            if es != [] && AllOpen(opens, es) then Some(Flagged(es)) else None
  {
    hide Tokens, OpenTokens, Entries, CommaJoin;
    var text := CommaJoin(Entries(es));
    assert forall e <- es :: CleanPath(e.1);
    EntriesAreClean(es);
    SpanOfPrefix(text, "\0", NotNul);
    TokensOfJoin(Entries(es));
    OpenEntries(opens, es);
    EntryCount(es);
  }

  lemma {:induction false} EntryCount(es: seq<Joined>)
    ensures |Entries(es)| == |es| && |Flagged(es)| == |es|
    ensures forall i :: 0 <= i < |es| ==> Entries(es)[i] == Entry(es[i]) && Flagged(es)[i] == (Some(es[i].0), es[i].1)
  {
    hide Entry;
    if es != [] {
      EntryCount(es[1..]);
    }
  }

  function Rank(t: NsType): nat {
    match t
    case NewUser => 0
    case NewIpc => 1
    case NewUts => 2
    case NewNet => 3
    case NewPid => 4
    case NewNs => 5
    case NewCgroup => 6
    case NewTime => 7
  }

  lemma {:induction false} WantedSorted(list: seq<Namespace>, nsMaps: map<NsType, string>, n: nat)
    requires n <= |TYPES|
    ensures var es := Wanted(list, nsMaps, TYPES[..n]);
            && (forall i, j :: 0 <= i < j < |es| ==> Rank(es[i].0) < Rank(es[j].0))
            && (forall e <- es :: Wants(list, nsMaps, e.0) && e.1 == nsMaps[e.0] && Rank(e.0) < n)
            && (forall t :: Wants(list, nsMaps, t) && Rank(t) < n ==> (t, nsMaps[t]) in es)
    decreases n
  {
    hide Contains;
    if n == 0 {
      assert TYPES[..0] == [];
    } else {
      WantedSorted(list, nsMaps, n - 1);
      var t := TYPES[n - 1];
      assert Rank(t) == n - 1;
      assert TYPES[..n] == TYPES[..n - 1] + [t];
      WantedSnoc(list, nsMaps, TYPES[..n - 1], t);
      assert forall u :: Rank(u) == n - 1 ==> u == t;
    }
  }

  /** Exactly the namespaces with a path are joined, each once, and the user namespace before all others. */
  lemma UserNamespaceFirst(list: seq<Namespace>, nsMaps: map<NsType, string>)
    ensures var es := Wanted(list, nsMaps, TYPES);
            && (forall t, p :: (t, p) in es <==> Wants(list, nsMaps, t) && nsMaps[t] == p)
            && (forall i, j :: 0 <= i < j < |es| ==> es[i].0 != es[j].0)
            && (Wants(list, nsMaps, NewUser) ==> es != [] && es[0].0 == NewUser)
  {
    hide Wanted, Contains;
    WantedSorted(list, nsMaps, |TYPES|);
    assert TYPES[..|TYPES|] == TYPES;
    var es := Wanted(list, nsMaps, TYPES);
    forall t | Wants(list, nsMaps, t)
      ensures (t, nsMaps[t]) in es
    {
      assert Rank(t) < |TYPES|;
    }
    if Wants(list, nsMaps, NewUser) {
      var i :| 0 <= i < |es| && es[i] == (NewUser, nsMaps[NewUser]);
      assert forall j :: 0 < j < |es| ==> Rank(es[0].0) < Rank(es[j].0);
      assert i == 0;
    }
  }
}
