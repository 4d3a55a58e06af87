/**
 * How the parts of the start-up join: the message protocol begins where the bootstrap ends, and the namespaces
 * that stage 1 joins are those the specification asked for.
 */
module Handover {
  import opened Wrappers
  import opened Pipes
  import opened Words
  import opened Netlink
  import opened BootstrapMessage
  import opened NamespacePaths
  import Bootstrap
  import Decimal
  import IdMapText
  import Namespaces
  import Sync = SyncProtocol
  import SyncOutcomes

  // ----- from the bootstrap to the message loop -----

  /** The same moment seen by both models: the same message is in flight and init is equally far. */
  predicate SameMoment(setup: Sync.Setup, b: Bootstrap.State, s: Sync.State) {
    && s.p == Sync.Loop
    && s.up == Empty && s.buf == Empty && b.toParent == Empty
    && s.down == (if b.toInit == Empty then Empty else One(Sync.InitConfig))
    && s.c == (if b.c == Bootstrap.Running then Sync.Working(Sync.Start(setup)) else Sync.AwaitConfig)
    && (s.killed <==> b.cLife != Bootstrap.Alive)
  }

  /**
   * Whenever the parent is done with the bootstrap, the message protocol can be in the same moment: the
   * configuration is in flight or read, nothing else is under way, and init is alive or not.
   */
  lemma LoopStartsWhereBootstrapEnds(cfg: Bootstrap.Config, acts: seq<Bootstrap.Action>, setup: Sync.Setup)
    requires cfg.sendByte == cfg.waitByte && Bootstrap.Run(cfg, Bootstrap.Initial(), acts).Some?
    requires Bootstrap.Run(cfg, Bootstrap.Initial(), acts).value.p == Bootstrap.ParentDone
    ensures exists s ::
              Sync.Reachable(setup, s) && SameMoment(setup, Bootstrap.Run(cfg, Bootstrap.Initial(), acts).value, s)
  {
    hide Bootstrap.Run, Sync.Reachable, Sync.Start;
    Bootstrap.CleanInitPipe(cfg, acts);
    var b := Bootstrap.Run(cfg, Bootstrap.Initial(), acts).value;
    var s := if b.c == Bootstrap.Running then SyncOutcomes.Calm(setup, Sync.Start(setup)) else Sync.Initial(setup);
    Starts(setup);
    if b.cLife == Bootstrap.Alive {
      assert SameMoment(setup, b, s);
    } else {
      var dead := s.(killed := true, faulted := true);
      assert Sync.Next(setup, s, Sync.ChildKilled) == Some(dead);
      SyncOutcomes.ReachNext(setup, s, Sync.ChildKilled, dead);
      assert SameMoment(setup, b, dead);
    }
  }

  lemma Starts(setup: Sync.Setup)
    ensures Sync.Reachable(setup, Sync.Initial(setup)) &&
            Sync.Reachable(setup, SyncOutcomes.Calm(setup, Sync.Start(setup)))
  {
    assert Sync.Execute(setup, Sync.Initial(setup), []) == Some(Sync.Initial(setup));
    SyncOutcomes.CalmStart(setup);
  }

  // ----- from the specification to the joined namespaces -----

  predicate IsByte(c: char) {
    0 <= (c as int) < 0x100
  }

  /** A string of bytes, as the message carries it. */
  function ToBytes(s: string): (r: seq<Byte>)
    requires forall c <- s :: IsByte(c)
    ensures |r| == |s| && forall i :: 0 <= i < |s| ==> r[i] == s[i] as int
  {
    if s == "" then []
    else
      assert IsByte(s[0]);
      var first: Byte := s[0] as int;
      [first] + ToBytes(s[1..])
  }

  /** Bytes read as characters. */
  function Chars(b: seq<Byte>): (r: string)
    ensures |r| == |b| && forall i :: 0 <= i < |b| ==> r[i] as int == b[i]
  {
    if b == [] then "" else [b[0] as char] + Chars(b[1..])
  }

  lemma CharsOfText(s: string)
    requires forall c <- s :: IsByte(c)
    ensures Chars(ToBytes(s) + [0]) == s + "\0"
  {
    var b := ToBytes(s) + [0];
    assert forall i :: 0 <= i < |b| ==> Chars(b)[i] == (s + "\0")[i];
  }

  /** The text stored under a kind, if it is one and lies in the payload. */
  function TextAt(data: seq<Byte>, fields: Fields, kind: Word16): Option<string> {
    match Stored(data, fields, kind)
    case Some(TextValue(text)) => Some(Chars(text))
    case _ => None
  }

  /** The text that stage 1 finds under the namespace attribute of a message that fits. */
  lemma NsPathsText(b: BootInfo, text: string)
    requires (forall c <- text :: IsByte(c)) && b.nsPaths == Some(ToBytes(text)) && AllFit(b)
    ensures var data := Message(BootstrapAttrs(b));
            var r := ParseFrom(data, 0, map[]);
            r.Parsed? && TextAt(data, r.fields, NS_PATHS) == Some(text + "\0")
  {
    hide ParseFrom, Message, BootstrapAttrs, Stored, AllFit;
    GeneralFieldsArrive(b);
    CharsOfText(text);
  }

  /**
   * End to end: when the paths of a namespace list are accepted and the bootstrap message fits, stage 1 joins
   * exactly the namespaces with a path, with their own types and whole paths, in the fixed order, provided it can
   * open them; with none to join it gives up.
   */
  lemma NamespacesArriveIntact(host: Host, opens: set<string>, list: seq<Namespaces.Namespace>,
                               nsMaps: map<Namespaces.NsType, string>, b: BootInfo)
    requires forall e <- Wanted(list, nsMaps, TYPES) :: Accepts(host, e)
    requires var text := CommaJoin(Entries(Wanted(list, nsMaps, TYPES)));
             (forall c <- text :: IsByte(c)) && b.nsPaths == Some(ToBytes(text))
    requires AllFit(b)
    ensures var es := Wanted(list, nsMaps, TYPES);
            var data := Message(BootstrapAttrs(b));
            var r := ParseFrom(data, 0, map[]);
            && r.Parsed? && TextAt(data, r.fields, NS_PATHS).Some?
            && JoinNamespaces(opens, TextAt(data, r.fields, NS_PATHS).value) ==
               if es != [] && AllOpen(opens, es) then Some(Flagged(es)) else None
  {
    hide ParseFrom, Message, BootstrapAttrs, JoinNamespaces, Wanted, Entries, CommaJoin, Accepts, AllFit;
    var es := Wanted(list, nsMaps, TYPES);
    NsPathsText(b, CommaJoin(Entries(es)));
    ListRoundTrip(host, opens, es);
  }

  /**
   * For a list without duplicates, as a specification yields it, with at least one path: stage 1 joins each entry
   * that has a path, under its own type, and nothing else; the user namespace, if it is among them, comes first.
   */
  lemma EntriesWithPathAreJoined(host: Host, opens: set<string>, list: seq<Namespaces.Namespace>, b: BootInfo)
    requires Namespaces.DuplicateFree(list) && Paths(list) != map[]
    requires forall e <- list :: e.path != "" ==> Accepts(host, (e.kind, e.path)) && e.path in opens
    requires var text := CommaJoin(Entries(Wanted(list, Paths(list), TYPES)));
             (forall c <- text :: IsByte(c)) && b.nsPaths == Some(ToBytes(text))
    requires AllFit(b)
    ensures var data := Message(BootstrapAttrs(b));
            var r := ParseFrom(data, 0, map[]);
            && r.Parsed? && TextAt(data, r.fields, NS_PATHS).Some?
            && JoinNamespaces(opens, TextAt(data, r.fields, NS_PATHS).value) ==
              Some(Flagged(Wanted(list, Paths(list), TYPES)))
    ensures JoinsEntries(list, Flagged(Wanted(list, Paths(list), TYPES)))
  {
    hide ParseFrom, Message, BootstrapAttrs, JoinNamespaces, Wanted, Entries, CommaJoin, Accepts, Paths, Flagged,
      AllFit, Namespaces.DuplicateFree;
    var es := Wanted(list, Paths(list), TYPES);
    WantedAreEntriesWithPath(list);
    forall e | e in es
      ensures Accepts(host, e) && e.1 in opens
    {
      assert Namespaces.Namespace(e.0, e.1) in list;
    }
    NamespacesArriveIntact(host, opens, list, Paths(list), b);
    SomethingWanted(list);
    assert AllOpen(opens, es);
    JoinsWanted(list);
  }

  /** The joined namespaces are the entries with a path, each once, the user namespace before the others. */
  ghost predicate JoinsEntries(list: seq<Namespaces.Namespace>, joined: Opened) {
    && (forall t, p :: (Some(t), p) in joined <==> p != "" && Namespaces.Namespace(t, p) in list)
    && (forall i, j :: 0 <= i < j < |joined| ==> joined[i].0 != joined[j].0)
    && (forall i :: 0 <= i < |joined| && joined[i].0 == Some(Namespaces.NewUser) ==> i == 0)
  }

  lemma JoinsWanted(list: seq<Namespaces.Namespace>)
    requires Namespaces.DuplicateFree(list)
    ensures JoinsEntries(list, Flagged(Wanted(list, Paths(list), TYPES)))
  {
    hide Wanted, Paths, Flagged, Namespaces.DuplicateFree, Namespaces.Contains;
    var es := Wanted(list, Paths(list), TYPES);
    var joined := Flagged(es);
    WantedAreEntriesWithPath(list);
    UserNamespaceFirst(list, Paths(list));
    EntryCount(es);
    forall t, p
      ensures (Some(t), p) in joined <==> (t, p) in es
    {
      if (t, p) in es {
        var i :| 0 <= i < |es| && es[i] == (t, p);
        assert joined[i] == (Some(t), p);
      }
    }
    forall i | 0 <= i < |joined| && joined[i].0 == Some(Namespaces.NewUser)
      ensures i == 0
    {
      assert (es[i].0, es[i].1) in es;
    }
  }

  lemma SomethingWanted(list: seq<Namespaces.Namespace>)
    requires Namespaces.DuplicateFree(list) && Paths(list) != map[]
    ensures Wanted(list, Paths(list), TYPES) != []
  {
    hide Wanted, Paths;
    var t :| t in Paths(list);
    PathsOf(list, t);
    WantedAreEntriesWithPath(list);
    var p := Paths(list)[t];
    assert p != "" && Namespaces.Namespace(t, p) in list;
    assert (t, p) in Wanted(list, Paths(list), TYPES);
  }

  // ----- from the ID mappings to the lines that the stages write -----

  lemma NumberIsBytes(n: int)
    ensures forall c <- Decimal.FormatInt(n) :: IsByte(c)
  {
  }

  lemma LineIsBytes(m: IdMapText.IdMap)
    ensures forall c <- IdMapText.Line(m) + "\n" :: IsByte(c)
  {
    hide Decimal.FormatInt;
    NumberIsBytes(m.container);
    NumberIsBytes(m.host);
    NumberIsBytes(m.size);
  }

  lemma {:induction false} MapTextIsBytes(maps: seq<IdMapText.IdMap>)
    ensures forall c <- IdMapText.Encode(maps) :: IsByte(c)
  {
    hide IdMapText.Line;
    if maps != [] {
      var last := maps[|maps| - 1];
      MapTextIsBytes(maps[..|maps| - 1]);
      LineIsBytes(last);
      IdMapText.EncodeSnoc(maps[..|maps| - 1], last);
      assert maps == maps[..|maps| - 1] + [last];
    }
  }

  /** What is sent for a list of mappings: its lines, or nothing if there are none. */
  function MapText(maps: seq<IdMapText.IdMap>): Option<seq<Byte>> {
    if maps == [] then None
    else
      MapTextIsBytes(maps);
      Some(ToBytes(IdMapText.Encode(maps)))
  }

  /** The text under a kind, but for its closing zero, is read as these mappings; without mappings there is none. */
  predicate Delivers(data: seq<Byte>, fields: Fields, kind: Word16, maps: seq<IdMapText.IdMap>) {
    if maps == [] then kind !in fields
    else
      var text := TextAt(data, fields, kind);
      && text.Some? && text.value != "" && text.value[|text.value| - 1] == '\0'
      && IdMapText.Parse(text.value[..|text.value| - 1], IdMapText.Any) == Some(maps)
  }

  lemma TextDelivers(data: seq<Byte>, fields: Fields, kind: Word16, maps: seq<IdMapText.IdMap>)
    requires forall m <- maps :: InRange(m)
    requires Stored(data, fields, kind) == ClosedIf(MapText(maps))
    ensures Delivers(data, fields, kind, maps)
  {
    hide IdMapText.Parse, IdMapText.Encode, IdMapText.IsInt64;
    if maps != [] {
      var text := IdMapText.Encode(maps);
      MapTextIsBytes(maps);
      CharsOfText(text);
      assert (text + "\0")[..|text|] == text;
      IdMapText.RoundTrip(maps);
    }
  }

  predicate InRange(m: IdMapText.IdMap) {
    IdMapText.IsInt64(m.container) && IdMapText.IsInt64(m.host) && IdMapText.IsInt64(m.size)
  }

  /**
   * End to end: in a message that fits, the stages find the user mappings under the user kind and the group mappings
   * under the group kind, and the text says exactly the mappings that were configured.
   */
  lemma MappingsArriveIntact(b: BootInfo, uids: seq<IdMapText.IdMap>, gids: seq<IdMapText.IdMap>)
    requires (forall m <- uids :: InRange(m)) && (forall m <- gids :: InRange(m))
    requires b.user.Some? && b.user.value.uidMap == MapText(uids) && b.user.value.gidMap == MapText(gids)
    requires AllFit(b)
    ensures var data := Message(BootstrapAttrs(b));
            var r := ParseFrom(data, 0, map[]);
            && r.Parsed?
            && Delivers(data, r.fields, UID_MAP, uids)
            && Delivers(data, r.fields, GID_MAP, gids)
  {
    hide ParseFrom, Message, BootstrapAttrs, Stored, AllFit, Delivers, MapText, InRange;
    UserFieldsArrive(b);
    var data := Message(BootstrapAttrs(b));
    var r := ParseFrom(data, 0, map[]);
    TextDelivers(data, r.fields, UID_MAP, uids);
    TextDelivers(data, r.fields, GID_MAP, gids);
  }
}
