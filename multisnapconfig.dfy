/**
 * src/multi_snap_config.py: the validation `_load_layout` applies to a loaded
 * layout, and the address tables `_configure_board` builds for one board
 * before it returns (its `return macs, dests`).
 */
module MultiSnapConfig {
  import opened Results
  import opened PyValue
  import opened MacAddress

  // ---------------------------------------------------------------------------
  // Layout validation
  // ---------------------------------------------------------------------------

  datatype LayoutError =
    | NoBoardsKey    // not a dict, or no "boards" key
    | BoardsNotList  // "boards" holds something other than a list

  /** `_load_layout` on the loaded document: the list of board descriptors. */
  function LoadLayout(cfg: Value): (r: Result<seq<Value>, LayoutError>)
    ensures r == Err(NoBoardsKey) <==> !cfg.VDict? || Lookup(cfg.entries, "boards").None?
    ensures r == Err(BoardsNotList) <==>
      cfg.VDict? && Lookup(cfg.entries, "boards").Some? && !Lookup(cfg.entries, "boards").value.VList?
    ensures r.Ok? ==> cfg.VDict? && Lookup(cfg.entries, "boards") == Some(VList(r.value))
  {
    if !cfg.VDict? || Lookup(cfg.entries, "boards").None? then Err(NoBoardsKey)
    else
      var boards := Lookup(cfg.entries, "boards").value;
      if !boards.VList? then Err(BoardsNotList) else Ok(boards.items)
  }

  lemma {:induction false} LookupAppend(a: Entries, b: Entries, key: string)
    ensures Lookup(a + b, key) == if Lookup(a, key).Some? then Lookup(a, key) else Lookup(b, key)
  {
    if a == [] {
      assert a + b == b;
    } else {
      assert (a + b)[0] == a[0] && (a + b)[1..] == a[1..] + b;
      LookupAppend(a[1..], b, key);
    }
  }

  /** A document whose "boards" entry holds a list loads as exactly that list,
      whatever other keys stand before or after it. */
  lemma LayoutBoards(pre: Entries, boards: seq<Value>, post: Entries)
    requires Lookup(pre, "boards").None?
    ensures LoadLayout(VDict(pre + [(VStr("boards"), VList(boards))] + post)) == Ok(boards)
  {
    var e: Entries := [(VStr("boards"), VList(boards))];
    assert pre + e + post == pre + (e + post);
    LookupAppend(pre, e + post, "boards");
  }

  // ---------------------------------------------------------------------------
  // Per-board address tables
  // ---------------------------------------------------------------------------

  /** Port a source or a destination uses when it names none. */
  const DefaultPort: int := 10000

  /** One normalised destination record of `dests`. */
  datatype Dest = Dest(ip: string, port: int, startChan: int, nchan: int)

  /** A destination as read: its MAC (the value stored in `macs`) and its record. */
  datatype Entry = Entry(mac: int, dest: Dest)

  datatype Source = Source(ip: string, port: int, mac: int)

  /** What `_configure_board` returns: `macs` and `dests`. */
  datatype Tables = Tables(macs: map<string, int>, dests: seq<Dest>)

  datatype BoardError =
    | NotSubscriptable        // `x[key]` on something that is not a dict (TypeError)
    | MissingKey(key: string) // KeyError
    | NotIterable             // `for dest in ...` over a non-iterable (TypeError)
    | BadInt(key: string)     // int(...) raised for this field
    | BadMac(e: MacError)     // `_mac_to_int` raised

  /** `x[key]`. */
  function Subscript(x: Value, key: string): (r: Result<Value, BoardError>)
    ensures r.Ok? <==> x.VDict? && Lookup(x.entries, key).Some?
    ensures r.Ok? ==> Lookup(x.entries, key) == Some(r.value)
  {
    if !x.VDict? then Err(NotSubscriptable)
    else match Lookup(x.entries, key)
      case Some(v) => Ok(v)
      case None => Err(MissingKey(key))
  }

  /** int(v) for the field key. */
  function IntField(v: Value, key: string): Result<int, BoardError> {
    match ToInt(v)
    case Some(i) => Ok(i)
    case None => Err(BadInt(key))
  }

  function Mac(v: Value): Result<int, BoardError> {
    match MacToInt(v)
    case Ok(m) => Ok(m)
    case Err(e) => Err(BadMac(e))
  }

  /** The source endpoint of a descriptor (lines 100-103). */
  function ReadSource(src: Value): (r: Result<Source, BoardError>)
    ensures !src.VDict? ==> r == Err(NotSubscriptable)
    ensures src.VDict? && Lookup(src.entries, "ip").None? ==> r == Err(MissingKey("ip"))
    ensures (src.VDict? && Lookup(src.entries, "ip").Some?
             && ToInt(GetOr(src.entries, "port", VInt(DefaultPort))).None?) ==> r == Err(BadInt("port"))
    ensures (src.VDict? && Lookup(src.entries, "ip").Some?
             && ToInt(GetOr(src.entries, "port", VInt(DefaultPort))).Some?
             && Lookup(src.entries, "mac").None?) ==> r == Err(MissingKey("mac"))
    ensures (src.VDict? && Lookup(src.entries, "ip").Some?
             && ToInt(GetOr(src.entries, "port", VInt(DefaultPort))).Some?
             && Lookup(src.entries, "mac").Some?) ==>
      var m := MacToInt(Lookup(src.entries, "mac").value);
      && (m.Ok? ==> r.Ok?)
      && (m.Err? ==> r == Err(BadMac(m.error)))
    ensures r.Ok? ==> src.VDict? && Lookup(src.entries, "ip").Some? && Lookup(src.entries, "mac").Some?
    ensures r.Ok? ==> r.value.ip == Str(Lookup(src.entries, "ip").value)
    ensures r.Ok? ==> ToInt(GetOr(src.entries, "port", VInt(DefaultPort))) == Some(r.value.port)
    ensures r.Ok? ==> MacToInt(Lookup(src.entries, "mac").value) == Ok(r.value.mac)
    ensures r.Ok? && Lookup(src.entries, "port").None? ==> r.value.port == DefaultPort
  {
    var ip :- Subscript(src, "ip");
    var port :- IntField(GetOr(src.entries, "port", VInt(DefaultPort)), "port");
    var mac :- Subscript(src, "mac");
    var m :- Mac(mac);
    Ok(Source(Str(ip), port, m))
  }

  /** One destination of the loop body (lines 107-116). */
  function ReadDest(d: Value): (r: Result<Entry, BoardError>)
    ensures !d.VDict? ==> r == Err(NotSubscriptable)
    ensures d.VDict? && Lookup(d.entries, "ip").None? ==> r == Err(MissingKey("ip"))
    ensures (d.VDict? && Lookup(d.entries, "ip").Some?
             && Lookup(d.entries, "mac").None?) ==> r == Err(MissingKey("mac"))
    ensures (d.VDict? && Lookup(d.entries, "ip").Some? && Lookup(d.entries, "mac").Some?
             && MacToInt(Lookup(d.entries, "mac").value).Err?) ==>
      r == Err(BadMac(MacToInt(Lookup(d.entries, "mac").value).error))
    ensures (d.VDict? && Lookup(d.entries, "ip").Some? && Lookup(d.entries, "mac").Some?
             && MacToInt(Lookup(d.entries, "mac").value).Ok?) ==>
      var port := ToInt(GetOr(d.entries, "port", VInt(DefaultPort)));
      var sc := Lookup(d.entries, "start_chan");
      var nc := Lookup(d.entries, "nchan");
      && (port.None? ==> r == Err(BadInt("port")))
      && (port.Some? && sc.None? ==> r == Err(MissingKey("start_chan")))
      && (port.Some? && sc.Some? && ToInt(sc.value).None? ==> r == Err(BadInt("start_chan")))
      && (port.Some? && sc.Some? && ToInt(sc.value).Some? && nc.None? ==> r == Err(MissingKey("nchan")))
      && (port.Some? && sc.Some? && ToInt(sc.value).Some? && nc.Some? && ToInt(nc.value).None? ==>
            r == Err(BadInt("nchan")))
      && (port.Some? && sc.Some? && ToInt(sc.value).Some? && nc.Some? && ToInt(nc.value).Some? ==> r.Ok?)
  {
    var ip :- Subscript(d, "ip");
    var mac :- Subscript(d, "mac");
    var m :- Mac(mac);
    var port :- IntField(GetOr(d.entries, "port", VInt(DefaultPort)), "port");
    var startChan :- Subscript(d, "start_chan");
    var s :- IntField(startChan, "start_chan");
    var nchan :- Subscript(d, "nchan");
    var n :- IntField(nchan, "nchan");
    Ok(Entry(m, Dest(Str(ip), port, s, n)))
  }

  /** A destination that reads carries str() of its "ip" and the MAC its
      "mac" denotes. */
  lemma ReadDestFields(d: Value)
    requires ReadDest(d).Ok?
    ensures var e := ReadDest(d).value;
      && d.VDict?
      && Lookup(d.entries, "ip").Some? && e.dest.ip == Str(Lookup(d.entries, "ip").value)
      && Lookup(d.entries, "mac").Some? && MacToInt(Lookup(d.entries, "mac").value) == Ok(e.mac)
  {
  }

  /** A destination that reads carries int() of its "start_chan" and
      "nchan", and int() of its "port", 10000 when it has none. */
  lemma ReadDestNumbers(d: Value)
    requires ReadDest(d).Ok?
    ensures var e := ReadDest(d).value;
      && d.VDict?
      && ToInt(GetOr(d.entries, "port", VInt(DefaultPort))) == Some(e.dest.port)
      && Lookup(d.entries, "start_chan").Some?
      && ToInt(Lookup(d.entries, "start_chan").value) == Some(e.dest.startChan)
      && Lookup(d.entries, "nchan").Some?
      && ToInt(Lookup(d.entries, "nchan").value) == Some(e.dest.nchan)
    ensures d.VDict? && Lookup(d.entries, "port").None? ==> ReadDest(d).value.dest.port == DefaultPort
  {
  }

  /** A destination whose MAC is written as a plain integer and whose port is
      quoted text int() accepts (`port: "10001"`) reads, with that port. */
  lemma QuotedPortReads(ip: string, mac: int, t: string, port: int, start: int, nchan: int)
    requires PyInt(t, 10) == Some(port)
    ensures var d := VDict([(VStr("ip"), VStr(ip)), (VStr("mac"), VInt(mac)), (VStr("port"), VStr(t)),
                            (VStr("start_chan"), VInt(start)), (VStr("nchan"), VInt(nchan))]);
      ReadDest(d) == Ok(Entry(mac, Dest(ip, port, start, nchan)))
  {
    var es: Entries := [(VStr("ip"), VStr(ip)), (VStr("mac"), VInt(mac)), (VStr("port"), VStr(t)),
                        (VStr("start_chan"), VInt(start)), (VStr("nchan"), VInt(nchan))];
    LookupFirst(es, "ip", 0);
    LookupFirst(es, "mac", 1);
    LookupFirst(es, "port", 2);
    LookupFirst(es, "start_chan", 3);
    LookupFirst(es, "nchan", 4);
  }

  /** In particular the quoted decimal text of any port reads as that port. */
  lemma QuotedDecimalPortReads(ip: string, mac: int, port: int, start: int, nchan: int)
    ensures var d := VDict([(VStr("ip"), VStr(ip)), (VStr("mac"), VInt(mac)), (VStr("port"), VStr(Str(VInt(port)))),
                            (VStr("start_chan"), VInt(start)), (VStr("nchan"), VInt(nchan))]);
      ReadDest(d) == Ok(Entry(mac, Dest(ip, port, start, nchan)))
  {
    var t := Str(VInt(port));
    IntStrRoundTrip(port, "", "");
    assert "" + t + "" == t;
    QuotedPortReads(ip, mac, t, port, start, nchan);
  }

  /** Each element read in order; the first that fails decides the error. */
  function ReadEach<X, Y, E>(read: X -> Result<Y, E>, xs: seq<X>): Result<seq<Y>, E> {
    if xs == [] then Ok([])
    else
      match ReadEach(read, xs[..|xs| - 1])
      case Err(e) => Err(e)
      case Ok(ys) =>
        match read(xs[|xs| - 1])
        case Err(e) => Err(e)
        case Ok(y) => Ok(ys + [y])
  }

  /** All elements read exactly when each one does, and then there is one
      result per element, in order. */
  lemma {:induction false} ReadEachOk<X, Y, E>(read: X -> Result<Y, E>, xs: seq<X>)
    ensures ReadEach(read, xs).Ok? <==> forall i :: 0 <= i < |xs| ==> read(xs[i]).Ok?
    ensures ReadEach(read, xs).Ok? ==>
      (|ReadEach(read, xs).value| == |xs| && forall i :: 0 <= i < |xs| ==> read(xs[i]) == Ok(ReadEach(read, xs).value[i]))
  {
    if xs != [] {
      var init := xs[..|xs| - 1];
      assert forall i :: 0 <= i < |init| ==> init[i] == xs[i];
      ReadEachOk(read, init);
    }
  }

  /** All elements read: one result per element. */
  lemma {:induction false} ReadEachLength<X, Y, E>(read: X -> Result<Y, E>, xs: seq<X>)
    ensures ReadEach(read, xs).Ok? ==> |ReadEach(read, xs).value| == |xs|
  {
    if xs != [] {
      ReadEachLength(read, xs[..|xs| - 1]);
    }
  }

  /** The first element that fails decides the error. */
  lemma {:induction false} ReadEachFirstError<X, Y, E>(read: X -> Result<Y, E>, xs: seq<X>, k: nat)
    requires k < |xs| && read(xs[k]).Err?
    requires forall i :: 0 <= i < k ==> read(xs[i]).Ok?
    ensures ReadEach(read, xs) == Err(read(xs[k]).error)
  {
    var init := xs[..|xs| - 1];
    assert forall i :: 0 <= i < |init| ==> init[i] == xs[i];
    if k < |xs| - 1 {
      ReadEachFirstError(read, init, k);
    } else {
      ReadEachOk(read, init);
    }
  }

  /** The destinations, read in order. */
  function ReadDests(ds: seq<Value>): Result<seq<Entry>, BoardError> {
    ReadEach(ReadDest, ds)
  }

  /** `macs` after the source and the given destinations were entered, in order. */
  function MacTable(src: Source, es: seq<Entry>): map<string, int> {
    if es == [] then map[src.ip := src.mac]
    else MacTable(src, es[..|es| - 1])[es[|es| - 1].dest.ip := es[|es| - 1].mac]
  }

  function DestsOf(es: seq<Entry>): (r: seq<Dest>)
    ensures |r| == |es| && forall i :: 0 <= i < |es| ==> r[i] == es[i].dest
  {
    seq(|es|, i requires 0 <= i < |es| => es[i].dest)
  }

  /** `macs` holds exactly the source IP and every destination IP. */
  lemma {:induction false} MacTableKeys(src: Source, es: seq<Entry>)
    ensures MacTable(src, es).Keys == {src.ip} + set i | 0 <= i < |es| :: es[i].dest.ip
  {
    if es != [] {
      var init := es[..|es| - 1];
      MacTableKeys(src, init);
      assert forall i :: 0 <= i < |init| ==> init[i] == es[i];
      assert (set i | 0 <= i < |es| :: es[i].dest.ip)
          == (set i | 0 <= i < |init| :: init[i].dest.ip) + {es[|es| - 1].dest.ip};
    }
  }

  /** A destination whose IP no later destination repeats keeps its MAC:
      the last destination entered for an IP wins. */
  lemma {:induction false} MacTableLastWins(src: Source, es: seq<Entry>, k: nat)
    requires k < |es|
    requires forall j :: k < j < |es| ==> es[j].dest.ip != es[k].dest.ip
    ensures es[k].dest.ip in MacTable(src, es) && MacTable(src, es)[es[k].dest.ip] == es[k].mac
  {
    if k < |es| - 1 {
      var init := es[..|es| - 1];
      assert init[k] == es[k];
      MacTableLastWins(src, init, k);
    }
  }

  /** The source MAC survives unless a destination shares the source IP. */
  lemma {:induction false} MacTableSource(src: Source, es: seq<Entry>)
    requires forall i :: 0 <= i < |es| ==> es[i].dest.ip != src.ip
    ensures src.ip in MacTable(src, es) && MacTable(src, es)[src.ip] == src.mac
  {
    if es != [] {
      var init := es[..|es| - 1];
      assert forall i :: 0 <= i < |init| ==> init[i] == es[i];
      MacTableSource(src, init);
    }
  }

  /** The destination descriptors of a board: `board_def["destinations"]`, iterated. */
  function Destinations(board: Value): (r: Result<seq<Value>, BoardError>)
    ensures !board.VDict? ==> r == Err(NotSubscriptable)
    ensures board.VDict? && Lookup(board.entries, "destinations").None? ==> r == Err(MissingKey("destinations"))
    ensures board.VDict? && Lookup(board.entries, "destinations").Some? ==>
      var ds := Iter(Lookup(board.entries, "destinations").value);
      && (ds.Some? ==> r == Ok(ds.value))
      && (ds.None? ==> r == Err(NotIterable))
    ensures r.Ok? ==> board.VDict? && Lookup(board.entries, "destinations").Some?
    ensures r.Ok? ==> Iter(Lookup(board.entries, "destinations").value) == Some(r.value)
  {
    var v :- Subscript(board, "destinations");
    match Iter(v)
    case Some(ds) => Ok(ds)
    case None => Err(NotIterable)
  }

  /** The source endpoint of a board: `board_def["source"]`, read. */
  function BoardSource(board: Value): (r: Result<Source, BoardError>)
    ensures !board.VDict? ==> r == Err(NotSubscriptable)
    ensures board.VDict? && Lookup(board.entries, "source").None? ==> r == Err(MissingKey("source"))
    ensures board.VDict? && Lookup(board.entries, "source").Some? ==>
      r == ReadSource(Lookup(board.entries, "source").value)
  {
    var src :- Subscript(board, "source");
    ReadSource(src)
  }

  /** What the reachable part of `_configure_board` computes, lines 93-117. */
  function BoardTables(board: Value): (r: Result<Tables, BoardError>)
    ensures !board.VDict? ==> r == Err(NotSubscriptable)
    ensures board.VDict? && Lookup(board.entries, "host").None? ==> r == Err(MissingKey("host"))
    ensures (board.VDict? && Lookup(board.entries, "host").Some?
             && ToInt(GetOr(board.entries, "feng_id", VInt(0))).None?) ==> r == Err(BadInt("feng_id"))
    ensures (board.VDict? && Lookup(board.entries, "host").Some?
             && ToInt(GetOr(board.entries, "feng_id", VInt(0))).Some?) ==>
      if BoardSource(board).Err? then r == Err(BoardSource(board).error)
      else if Destinations(board).Err? then r == Err(Destinations(board).error)
      else r == FillTables(BoardSource(board).value, Destinations(board).value)
    ensures r.Ok? ==> BoardSource(board).Ok? && Destinations(board).Ok?
    ensures r.Ok? ==> r == FillTables(BoardSource(board).value, Destinations(board).value)
  {
    var _ :- Subscript(board, "host");
    var _ :- IntField(GetOr(board.entries, "feng_id", VInt(0)), "feng_id");
    var src :- BoardSource(board);
    var ds :- Destinations(board);
    var es :- ReadDests(ds);
    Ok(Tables(MacTable(src, es), DestsOf(es)))
  }

  /** The tables once the destinations are entered after the source. */
  function FillTables(source: Source, ds: seq<Value>): Result<Tables, BoardError> {
    var es :- ReadDests(ds);
    Ok(Tables(MacTable(source, es), DestsOf(es)))
  }

  /** A board that configures yields one record per destination descriptor,
      in order, each the one that descriptor reads as. */
  lemma BoardDests(board: Value, t: Tables, ds: seq<Value>)
    requires BoardTables(board) == Ok(t) && Destinations(board) == Ok(ds)
    ensures |t.dests| == |ds|
    ensures forall i :: 0 <= i < |ds| ==> ReadDest(ds[i]).Ok? && ReadDest(ds[i]).value.dest == t.dests[i]
  {
    ReadRecords(ReadDest, ds);
  }

  /** The records of a list every element of which reads, under any reader. */
  lemma ReadRecords(read: Value -> Result<Entry, BoardError>, ds: seq<Value>)
    requires ReadEach(read, ds).Ok?
    ensures var rs := DestsOf(ReadEach(read, ds).value);
      |rs| == |ds| && forall i :: 0 <= i < |ds| ==> read(ds[i]).Ok? && read(ds[i]).value.dest == rs[i]
  {
    ReadEachOk(read, ds);
  }

  /** The `macs` of a board that configures is keyed by the source IP and
      every destination IP, and by nothing else. */
  lemma BoardMacKeys(board: Value, t: Tables, src: Source, ds: seq<Value>)
    requires BoardTables(board) == Ok(t) && BoardSource(board) == Ok(src) && Destinations(board) == Ok(ds)
    ensures |t.dests| == |ds|
    ensures t.macs.Keys == {src.ip} + set i | 0 <= i < |t.dests| :: t.dests[i].ip
  {
    ReadEachLength(ReadDest, ds);
    TablesKeys(src, ReadDests(ds).value);
  }

  /** MacTableKeys, stated on the tables. */
  lemma TablesKeys(src: Source, es: seq<Entry>)
    ensures var t := Tables(MacTable(src, es), DestsOf(es));
      t.macs.Keys == {src.ip} + set i | 0 <= i < |t.dests| :: t.dests[i].ip
  {
    MacTableKeys(src, es);
    var ds := DestsOf(es);
    var viaDests := set i | 0 <= i < |ds| :: ds[i].ip;
    var viaEntries := set i | 0 <= i < |es| :: es[i].dest.ip;
    forall x | x in viaDests ensures x in viaEntries {
      var i :| 0 <= i < |ds| && ds[i].ip == x;
      assert es[i].dest.ip == x;
    }
    forall x | x in viaEntries ensures x in viaDests {
      var i :| 0 <= i < |es| && es[i].dest.ip == x;
      assert ds[i].ip == x;
    }
    assert viaDests == viaEntries;
  }

  /** In the `macs` of a board that configures, an IP no later destination
      repeats maps to that destination's MAC: a later destination overwrites
      an earlier one with the same IP. */
  lemma BoardMacValues(board: Value, t: Tables, src: Source, ds: seq<Value>)
    requires BoardTables(board) == Ok(t) && BoardSource(board) == Ok(src) && Destinations(board) == Ok(ds)
    ensures |t.dests| == |ds|
    ensures forall i :: 0 <= i < |ds| && (forall j :: i < j < |ds| ==> t.dests[j].ip != t.dests[i].ip) ==>
      ReadDest(ds[i]).Ok? && t.dests[i].ip in t.macs && t.macs[t.dests[i].ip] == ReadDest(ds[i]).value.mac
  {
    ReadAllLastWin(ReadDest, src, ds);
  }

  /** ReadLastWins for every destination at once, under any reader. */
  lemma ReadAllLastWin(read: Value -> Result<Entry, BoardError>, src: Source, ds: seq<Value>)
    requires ReadEach(read, ds).Ok?
    ensures var es := ReadEach(read, ds).value; var rs := DestsOf(es); var macs := MacTable(src, es);
      && |rs| == |ds|
      && forall i :: 0 <= i < |ds| && (forall j :: i < j < |ds| ==> rs[j].ip != rs[i].ip) ==>
           read(ds[i]).Ok? && rs[i].ip in macs && macs[rs[i].ip] == read(ds[i]).value.mac
  {
    ReadEachLength(read, ds);
    var es := ReadEach(read, ds).value;
    var rs := DestsOf(es);
    forall i | 0 <= i < |ds| && (forall j :: i < j < |ds| ==> rs[j].ip != rs[i].ip)
      ensures read(ds[i]).Ok? && rs[i].ip in MacTable(src, es) && MacTable(src, es)[rs[i].ip] == read(ds[i]).value.mac
    {
      ReadLastWins(read, src, ds, i);
    }
  }

  /** MacTableLastWins, for destinations as read by any reader. */
  lemma ReadLastWins(read: Value -> Result<Entry, BoardError>, src: Source, ds: seq<Value>, k: nat)
    requires ReadEach(read, ds).Ok? && k < |ds|
    requires var es := ReadEach(read, ds).value;
      |es| == |ds| && forall j :: k < j < |ds| ==> es[j].dest.ip != es[k].dest.ip
    ensures var es := ReadEach(read, ds).value;
      && read(ds[k]) == Ok(es[k])
      && es[k].dest.ip in MacTable(src, es) && MacTable(src, es)[es[k].dest.ip] == es[k].mac
  {
    ReadEachOk(read, ds);
    MacTableLastWins(src, ReadEach(read, ds).value, k);
  }

  /** In the `macs` of a board that configures, the source IP maps to the
      source MAC when no destination shares it. */
  lemma BoardMacSource(board: Value, t: Tables, src: Source, ds: seq<Value>)
    requires BoardTables(board) == Ok(t) && BoardSource(board) == Ok(src) && Destinations(board) == Ok(ds)
    requires forall i :: 0 <= i < |t.dests| ==> t.dests[i].ip != src.ip
    ensures src.ip in t.macs && t.macs[src.ip] == src.mac
  {
    var es := ReadDests(ds).value;
    assert t.dests == DestsOf(es);
    MacTableSource(src, es);
  }

  /** A destination descriptor written out: the MAC in colon notation. */
  function DestValue(e: Entry): Value
    requires 0 <= e.mac < MacLimit
  {
    VDict([(VStr("ip"), VStr(e.dest.ip)), (VStr("mac"), VStr(FormatMac(e.mac))),
           (VStr("port"), VInt(e.dest.port)), (VStr("start_chan"), VInt(e.dest.startChan)),
           (VStr("nchan"), VInt(e.dest.nchan))])
  }

  /** A source descriptor written out. */
  function SourceValue(src: Source): Value
    requires 0 <= src.mac < MacLimit
  {
    VDict([(VStr("ip"), VStr(src.ip)), (VStr("port"), VInt(src.port)), (VStr("mac"), VStr(FormatMac(src.mac)))])
  }

  /** A board descriptor written out. */
  function BoardValue(host: string, src: Source, es: seq<Entry>): Value
    requires 0 <= src.mac < MacLimit && forall i :: 0 <= i < |es| ==> 0 <= es[i].mac < MacLimit
  {
    VDict([(VStr("host"), VStr(host)), (VStr("source"), SourceValue(src)),
           (VStr("destinations"), VList(DestValues(es)))])
  }

  /** The destination descriptors written out, in order. */
  function DestValues(es: seq<Entry>): (r: seq<Value>)
    requires forall i :: 0 <= i < |es| ==> 0 <= es[i].mac < MacLimit
    ensures |r| == |es| && forall i :: 0 <= i < |es| ==> r[i] == DestValue(es[i])
  {
    seq(|es|, i requires 0 <= i < |es| => DestValue(es[i]))
  }

  lemma ReadDestValue(e: Entry)
    requires 0 <= e.mac < MacLimit
    ensures ReadDest(DestValue(e)) == Ok(e)
  {
    var es := DestValue(e).entries;
    LookupFirst(es, "ip", 0);
    LookupFirst(es, "mac", 1);
    LookupFirst(es, "port", 2);
    LookupFirst(es, "start_chan", 3);
    LookupFirst(es, "nchan", 4);
    MacRoundTrip(e.mac);
  }

  /** A source descriptor written out reads back as that source. */
  lemma ReadSourceValue(src: Source)
    requires 0 <= src.mac < MacLimit
    ensures ReadSource(SourceValue(src)) == Ok(src)
  {
    var es := SourceValue(src).entries;
    LookupFirst(es, "ip", 0);
    LookupFirst(es, "port", 1);
    LookupFirst(es, "mac", 2);
    MacRoundTrip(src.mac);
  }

  /** Destination descriptors written out read back as those destinations. */
  lemma ReadDestsValue(es: seq<Entry>)
    requires forall i :: 0 <= i < |es| ==> 0 <= es[i].mac < MacLimit
    ensures ReadDests(DestValues(es)) == Ok(es)
  {
    var ds := DestValues(es);
    forall i | 0 <= i < |ds| ensures ReadDest(ds[i]) == Ok(es[i]) {
      ReadDestValue(es[i]);
    }
    ReadEachOk(ReadDest, ds);
    assert ReadDests(ds).value == es;
  }

  /** A descriptor written out from a source and destinations configures to
      exactly those: `dests` lists the records in order and `macs` is the
      table they enter. */
  lemma BoardTablesValue(host: string, src: Source, es: seq<Entry>)
    requires 0 <= src.mac < MacLimit && forall i :: 0 <= i < |es| ==> 0 <= es[i].mac < MacLimit
    ensures BoardTables(BoardValue(host, src, es)) == Ok(Tables(MacTable(src, es), DestsOf(es)))
  {
    var board := BoardValue(host, src, es);
    BoardPartsValue(host, src, es);
    ReadDestsValue(es);
    assert FillTables(src, DestValues(es)) == Ok(Tables(MacTable(src, es), DestsOf(es)));
  }

  /** The parts of a board descriptor written out read back. */
  lemma BoardPartsValue(host: string, src: Source, es: seq<Entry>)
    requires 0 <= src.mac < MacLimit && forall i :: 0 <= i < |es| ==> 0 <= es[i].mac < MacLimit
    ensures var board := BoardValue(host, src, es);
      && Subscript(board, "host") == Ok(VStr(host))
      && GetOr(board.entries, "feng_id", VInt(0)) == VInt(0)
      && BoardSource(board) == Ok(src)
      && Destinations(board) == Ok(DestValues(es))
  {
    var board := BoardValue(host, src, es);
    LookupFirst(board.entries, "host", 0);
    LookupFirst(board.entries, "source", 1);
    LookupFirst(board.entries, "destinations", 2);
    LookupFound(board.entries, "feng_id");
    ReadSourceValue(src);
  }

  /** `_configure_board` up to its `return macs, dests`: enters the source in
      `macs`, then each destination in turn, appending its record to `dests`. */
  method ConfigureBoard(board: Value) returns (r: Result<Tables, BoardError>)
    ensures r == BoardTables(board)
  {
    var host :- Subscript(board, "host");
    var fengId :- IntField(GetOr(board.entries, "feng_id", VInt(0)), "feng_id");
    // `fpgfile` is read with .get, which cannot fail; it is used only after the return.
    var source :- BoardSource(board);
    var ds :- Destinations(board);
    r := EnterDestinations(source, ds);
  }

  /** Lines 98-116: `macs` starts with the source; the loop enters each
      destination's MAC under its IP and appends its record to `dests`. */
  method EnterDestinations(source: Source, ds: seq<Value>) returns (r: Result<Tables, BoardError>)
    ensures r == FillTables(source, ds)
  {
    var macs: map<string, int> := map[];
    macs := macs[source.ip := source.mac];
    var dests: seq<Dest> := [];
    ghost var read: seq<Entry> := [];
    for i := 0 to |ds|
      invariant ReadDests(ds[..i]) == Ok(read)
      invariant macs == MacTable(source, read)
      invariant dests == DestsOf(read)
    {
      assert ds[..i + 1][..i] == ds[..i];
      var entry := ReadDest(ds[i]);
      if entry.Err? {
        assert forall j :: 0 <= j < i ==> ds[..i][j] == ds[j];
        ReadEachOk(ReadDest, ds[..i]);
        ReadEachFirstError(ReadDest, ds, i);
        return Err(entry.error);
      }
      macs := macs[entry.value.dest.ip := entry.value.mac];
      dests := dests + [entry.value.dest];
      ghost var before := read;
      read := read + [entry.value];
      assert read[..|read| - 1] == before && read[|read| - 1] == entry.value;
    }
    assert ds[..|ds|] == ds;
    return Ok(Tables(macs, dests));
  }
}
