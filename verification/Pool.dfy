/**
 * The pool of idle connections in goproxy/transport/transport.go: first what its operations do to
 * the table of idle lists, then the operations as the source performs them on its objects.
 */
module Pool {
  import opened Options
  import opened ConnectMethods

  datatype Config = Config(disableKeepAlives: bool, maxIdleConnsPerHost: int)

  const DEFAULT_MAX_IDLE_CONNS_PER_HOST := 2

  function MaxIdle(cfg: Config): int {
    if cfg.maxIdleConnsPerHost == 0 then DEFAULT_MAX_IDLE_CONNS_PER_HOST else cfg.maxIdleConnsPerHost
  }

  predicate KeepsConnections(cfg: Config) {
    !cfg.disableKeepAlives && cfg.maxIdleConnsPerHost >= 0
  }

  // ----- the table of idle lists -----

  type Table<C> = map<string, seq<C>>

  function IdleList<C>(t: Table<C>, key: string): seq<C> {
    if key in t then t[key] else []
  }

  ghost predicate Listed<C>(t: Table<C>, key: string, c: C) {
    key in t && c in t[key]
  }

  predicate NoDuplicates<C(==)>(s: seq<C>) {
    forall i, j :: 0 <= i < j < |s| ==> s[i] != s[j]
  }

  /** No key has an empty list or one beyond the limit, and no list has an entry twice. */
  predicate Shapely<C(==)>(cfg: Config, t: Table<C>) {
    forall key :: key in t ==> 0 < |t[key]| <= MaxIdle(cfg) && NoDuplicates(t[key])
  }

  datatype PutResult<C> = PutResult(table: Table<C>, kept: bool, closed: bool)

  /** Returning a connection: it is kept on top of its list, or closed, or dropped because it is broken. */
  function Put<C>(cfg: Config, t: Table<C>, key: string, c: C, broken: bool): PutResult<C> {
    if !KeepsConnections(cfg) then PutResult(t, false, true)
    else if broken then PutResult(t, false, false)
    else if |IdleList(t, key)| >= MaxIdle(cfg) then PutResult(t, false, true)
    else PutResult(t[key := IdleList(t, key) + [c]], true, false)
  }

  /** The index of the topmost entry that is not broken, or -1. */
  function LiveTop<C(==)>(s: seq<C>, broken: set<C>): (i: int)
    ensures -1 <= i < |s|
    ensures i >= 0 ==> s[i] !in broken
    ensures forall j :: i < j < |s| ==> s[j] in broken
  {
    if s == [] then -1
    else if s[|s| - 1] !in broken then |s| - 1
    else LiveTop(s[..|s| - 1], broken)
  }

  /** The table with only the lowest n entries left under one key. */
  function Cut<C>(t: Table<C>, key: string, n: nat): Table<C>
    requires n > 0 ==> key in t && n <= |t[key]|
  {
    if n == 0 then t - {key} else t[key := t[key][..n]]
  }

  datatype TakeResult<C> = TakeResult(table: Table<C>, conn: Option<C>)

  lemma {:induction false} LiveTopIs<C>(s: seq<C>, broken: set<C>, i: int)
    requires -1 <= i < |s| && (i >= 0 ==> s[i] !in broken)
    requires forall j :: i < j < |s| ==> s[j] in broken
    ensures LiveTop(s, broken) == i
  {
    if s != [] && i < |s| - 1 {
      LiveTopIs(s[..|s| - 1], broken, i);
    }
  }

  lemma {:induction false} CutAll<C>(t: Table<C>, key: string)
    requires key in t ==> t[key] != []
    ensures Cut(t, key, |IdleList(t, key)|) == t
  {
    if key in t {
      assert t[key][..|t[key]|] == t[key];
    } else {
      assert t - {key} == t;
    }
  }

  lemma {:induction false} CutAgain<C>(t: Table<C>, key: string, n: nat)
    requires key in t && 0 < n <= |t[key]|
    ensures Cut(t, key, n)[key] == t[key][..n]
    ensures Cut(Cut(t, key, n), key, n - 1) == Cut(t, key, n - 1)
  {
    assert t[key][..n][..n - 1] == t[key][..n - 1];
  }

  /** Taking a connection: the topmost live one of the key's list, dropping the broken ones above it. */
  function Take<C(==)>(t: Table<C>, key: string, broken: set<C>): TakeResult<C> {
    var top := LiveTop(IdleList(t, key), broken);
    if top < 0 then TakeResult(Cut(t, key, 0), None)
    else TakeResult(Cut(t, key, top), Some(t[key][top]))
  }

  /**
   * What the configuration means: nothing is kept with keep-alives disabled or a negative limit;
   * otherwise a connection that is not broken is kept below the limit, which is two if none is set.
   */
  lemma {:induction false} KeepsUpToTheLimit<C>(cfg: Config, t: Table<C>, key: string, c: C, broken: bool)
    ensures var kept, n := Put(cfg, t, key, c, broken).kept, |IdleList(t, key)|;
            && (cfg.disableKeepAlives || cfg.maxIdleConnsPerHost < 0 ==> !kept)
            && (!cfg.disableKeepAlives && cfg.maxIdleConnsPerHost == 0 ==> (kept <==> !broken && n < 2))
            && (!cfg.disableKeepAlives && cfg.maxIdleConnsPerHost > 0 ==>
                  (kept <==> !broken && n < cfg.maxIdleConnsPerHost))
  {
  }

  lemma {:induction false} PutIsStackPush<C>(cfg: Config, t: Table<C>, key: string, c: C, broken: bool)
    requires Shapely(cfg, t) && !Listed(t, key, c)
    ensures var r := Put(cfg, t, key, c, broken);
            && Shapely(cfg, r.table)
            && (r.kept <==> KeepsConnections(cfg) && !broken && |IdleList(t, key)| < MaxIdle(cfg))
            && (r.kept ==> !r.closed && IdleList(r.table, key) == IdleList(t, key) + [c])
            && (r.closed <==> !KeepsConnections(cfg) || (!broken && |IdleList(t, key)| >= MaxIdle(cfg)))
            && (!r.kept ==> r.table == t)
            && (forall k, x :: Listed(r.table, k, x) <==> Listed(t, k, x) || (r.kept && k == key && x == c))
  {
  }

  /** Taking what was just put gives it back and restores the table. */
  lemma {:induction false} TakeUndoesPut<C>(cfg: Config, t: Table<C>, key: string, c: C, broken: set<C>)
    requires Shapely(cfg, t) && c !in broken && Put(cfg, t, key, c, false).kept
    ensures Take(Put(cfg, t, key, c, false).table, key, broken) == TakeResult(t, Some(c))
  {
    var t' := Put(cfg, t, key, c, false).table;
    assert t'[key][..|t'[key]| - 1] == IdleList(t, key);
    assert LiveTop(t'[key], broken) == |IdleList(t, key)|;
    if key in t {
      assert Cut(t', key, |IdleList(t, key)|) == t;
    } else {
      assert t' - {key} == t;
    }
  }

  lemma {:induction false} TakeIsStackPop<C>(cfg: Config, t: Table<C>, key: string, broken: set<C>)
    requires Shapely(cfg, t)
    ensures var r := Take(t, key, broken);
            && Shapely(cfg, r.table)
            && (forall k :: k != key ==> IdleList(r.table, k) == IdleList(t, k))
            && IdleList(r.table, key) <= IdleList(t, key)
            && (r.conn.Some? ==>
                  && Listed(t, key, r.conn.value) && r.conn.value !in broken
                  && IdleList(r.table, key) + [r.conn.value] <= IdleList(t, key)
                  && !Listed(r.table, key, r.conn.value))
            && (r.conn.None? ==> key !in r.table && forall x :: Listed(t, key, x) ==> x in broken)
            && (forall k, x :: Listed(r.table, k, x) ==> Listed(t, k, x))
            && (forall x :: Listed(t, key, x) && !Listed(r.table, key, x) ==> x in broken || r.conn == Some(x))
  {
    var s, top := IdleList(t, key), LiveTop(IdleList(t, key), broken);
    var r := Take(t, key, broken);
    if top >= 0 {
      assert IdleList(r.table, key) == s[..top];
      assert s[..top] + [s[top]] == s[..top + 1];
      forall i | 0 <= i < |s|
        ensures s[i] in s[..top] || s[i] == s[top] || s[i] in broken
      {
        if i < top {
          assert s[..top][i] == s[i];
        }
      }
    }
  }

  /** Down to the topmost live entry, everything dropped is broken, and the table keeps its shape. */
  lemma {:induction false} DroppedAreBroken<C>(cfg: Config, t: Table<C>, key: string, broken: set<C>)
    requires Shapely(cfg, t)
    ensures var top := LiveTop(IdleList(t, key), broken);
            var t' := Cut(t, key, top + 1);
            && Shapely(cfg, t')
            && (forall k, x :: Listed(t', k, x) ==> Listed(t, k, x))
            && (forall k, x :: Listed(t, k, x) && !Listed(t', k, x) ==> x in broken)
            && (top >= 0 ==> key in t' && |t'[key]| == top + 1)
  {
    var s, top := IdleList(t, key), LiveTop(IdleList(t, key), broken);
    forall i | 0 <= i < |s|
      ensures s[i] in s[..top + 1] || s[i] in broken
    {
      if i <= top {
        assert s[..top + 1][i] == s[i];
      }
    }
  }

  /** Taking the top entry takes that entry and nothing else. */
  lemma {:induction false} TopIsTaken<C>(cfg: Config, t: Table<C>, key: string)
    requires Shapely(cfg, t) && key in t
    ensures var n := |t[key]| - 1;
            && Shapely(cfg, Cut(t, key, n))
            && (forall k, c :: Listed(Cut(t, key, n), k, c) <==> Listed(t, k, c) && (k == key ==> c != t[key][n]))
  {
    var n := |t[key]| - 1;
    assert Listed(t, key, t[key][n]);
    assert t[key] == t[key][..n] + [t[key][n]];
  }

  // ----- the pool as the source keeps it -----

  class PersistConn {
    const cacheKey: string
    var broken: bool
    var connClosed: bool

    constructor (cacheKey: string)
      ensures this.cacheKey == cacheKey && !broken && !connClosed
    {
      this.cacheKey, broken, connClosed := cacheKey, false, false;
    }

    method Close()
      modifies this
      ensures broken && connClosed
    {
      broken := true;
      connClosed := true;
    }

    method IsBroken() returns (b: bool)
      ensures b == broken
    {
      b := broken;
    }
  }

  /** What other goroutines do meanwhile: they close any of these connections. */
  method CloseSome(others: set<PersistConn>, ghost watched: seq<PersistConn>)
    modifies others
    ensures forall i :: 0 <= i < |watched| && old(watched[i].broken) ==> watched[i].broken
  {
    var closing :| closing <= others;
    while closing != {}
      invariant closing <= others
      invariant forall i :: 0 <= i < |watched| && old(watched[i].broken) ==> watched[i].broken
    {
      var c :| c in closing;
      c.Close();
      closing := closing - {c};
    }
  }

  ghost function BrokenIn(s: seq<PersistConn>): set<PersistConn>
    reads s
  {
    set c | c in s && c.broken
  }

  class Transport {
    const cfg: Config
    var idleConn: Option<Table<PersistConn>>  // None: the map is not made yet

    constructor (cfg: Config)
      ensures this.cfg == cfg && Valid() && idleConn == None
    {
      this.cfg, idleConn := cfg, None;
    }

    ghost predicate Valid()
      reads this
    {
      idleConn.Some? ==>
        && Shapely(cfg, idleConn.value)
        && forall key, c :: key in idleConn.value && c in idleConn.value[key] ==> c.cacheKey == key
    }

    ghost function Idle(): set<PersistConn>
      reads this
    {
      if idleConn.None? then {}
      else set key, i | key in idleConn.value && 0 <= i < |idleConn.value[key]| :: idleConn.value[key][i]
    }

    lemma ListedIsIdle(key: string, c: PersistConn)
      requires idleConn.Some? && Listed(idleConn.value, key, c)
      ensures c in Idle()
    {
      var i :| 0 <= i < |idleConn.value[key]| && idleConn.value[key][i] == c;
    }

    /** The list of one key; there is none while the map is not made. */
    ghost function IdleFor(key: string): seq<PersistConn>
      reads this
    {
      if idleConn.None? then [] else IdleList(idleConn.value, key)
    }

    /**
     * Panics where it would write to a map that was not made. A connection that is in the pool
     * already is listed twice, which the pool does not survive in good shape.
     */
    method PutIdleConn(pconn: PersistConn) returns (kept: bool, panicked: bool)
      requires Valid()
      modifies this`idleConn, pconn
      ensures old(pconn !in IdleFor(pconn.cacheKey)) ==> Valid()
      ensures var t: Table<PersistConn> := if old(idleConn).Some? then old(idleConn.value) else map[];
              var r := Put(cfg, t, pconn.cacheKey, pconn, old(pconn.broken));
              && panicked == (old(idleConn).None? && r.kept)
              && kept == (r.kept && !panicked)
              && idleConn == (if old(idleConn).None? then None else Some(r.table))
              && pconn.broken == (old(pconn.broken) || r.closed)
              && pconn.connClosed == (old(pconn.connClosed) || r.closed)
    {
      panicked := false;
      if cfg.disableKeepAlives || cfg.maxIdleConnsPerHost < 0 {
        pconn.Close();
        return false, false;
      }
      var isBroken := pconn.IsBroken();
      if isBroken {
        return false, false;
      }
      var key := pconn.cacheKey;
      var max := cfg.maxIdleConnsPerHost;
      if max == 0 {
        max := DEFAULT_MAX_IDLE_CONNS_PER_HOST;
      }
      var pconns := if idleConn.Some? then IdleList(idleConn.value, key) else [];
      if |pconns| >= max {
        pconn.Close();
        return false, false;
      }
      if idleConn.None? {
        return false, true;
      }
      if pconn !in pconns {
        PutIsStackPush(cfg, idleConn.value, key, pconn, false);
      }
      idleConn := Some(idleConn.value[key := pconns + [pconn]]);
      kept := true;
    }

    /** Pops the last entry of a list, and the key with it if it was the only one. */
    method PopTop(key: string) returns (c: PersistConn)
      requires idleConn.Some? && key in idleConn.value && idleConn.value[key] != []
      modifies this`idleConn
      ensures c == old(idleConn.value[key][|idleConn.value[key]| - 1])
      ensures idleConn == Some(Cut(old(idleConn.value), key, |old(idleConn.value[key])| - 1))
    {
      var pconns := idleConn.value[key];
      if |pconns| == 1 {
        c := pconns[0];
        idleConn := Some(idleConn.value - {key});
      } else {
        c := pconns[|pconns| - 1];
        idleConn := Some(idleConn.value[key := pconns[..|pconns| - 1]]);
      }
    }

    /**
     * Pops entries until one is not broken or the key has none left. Meanwhile other goroutines may
     * close connections, which takes no transport lock: before each check any of `others`. The
     * outcome is as if all checks were made when the last one is.
     */
    method GetIdleConn(cm: ConnectMethod, others: set<PersistConn>) returns (pconn: Option<PersistConn>)
      requires Valid()
      modifies this`idleConn, others
      ensures Valid() && idleConn.Some?
      ensures var t: Table<PersistConn> := if old(idleConn).Some? then old(idleConn.value) else map[];
              TakeResult(idleConn.value, pconn) == Take(t, Key(cm), BrokenIn(old(IdleFor(Key(cm)))))
    {
      if idleConn.None? {
        idleConn := Some(map[]);
      }
      ghost var t := idleConn.value;
      var key := Key(cm);
      ghost var s, n := IdleList(t, key), |IdleList(t, key)|;
      CutAll(t, key);
      pconn := None;
      while key in idleConn.value
        invariant 0 <= n <= |s| && idleConn == Some(Cut(t, key, n)) && pconn.None?
        invariant forall j :: n <= j < |s| ==> s[j].broken
        decreases n
      {
        CutAgain(t, key, n);
        var c := PopTop(key);
        n := n - 1;
        CloseSome(others, s);
        var isBroken := c.IsBroken();
        if !isBroken {
          pconn := Some(c);
          break;
        }
      }
      LiveTopIs(s, BrokenIn(s), if pconn.Some? then n else -1);
      TakeIsStackPop(cfg, t, key, BrokenIn(s));
    }

    /** `dialed` is false when dialling, the proxy's CONNECT or the TLS handshake fails. */
    method GetConn(cm: ConnectMethod, dialed: bool, others: set<PersistConn>) returns (pconn: Option<PersistConn>)
      requires Valid()
      modifies this`idleConn, others
      ensures Valid() && idleConn.Some?
      ensures pconn.Some? ==>
                && pconn.value.cacheKey == Key(cm)
                && !pconn.value.broken
                && pconn.value !in IdleFor(Key(cm))
                && (fresh(pconn.value) || pconn.value in old(IdleFor(Key(cm))))
      // A pooled connection is used if there is one: what left the pool is broken or the result.
      ensures forall c :: c in old(IdleFor(Key(cm))) && c !in IdleFor(Key(cm)) ==> c.broken || pconn == Some(c)
      ensures pconn.Some? && pconn.value !in old(IdleFor(Key(cm))) ==>
                && dialed && fresh(pconn.value) && !pconn.value.connClosed
                && forall c :: c in old(IdleFor(Key(cm))) ==> c.broken
      ensures pconn.None? ==> !dialed && forall c :: c in old(IdleFor(Key(cm))) ==> c.broken
      ensures IdleFor(Key(cm)) <= old(IdleFor(Key(cm)))
      ensures forall key :: key != Key(cm) ==> IdleFor(key) == old(IdleFor(key))
    {
      ghost var t: Table<PersistConn> := if idleConn.Some? then idleConn.value else map[];
      ghost var s := IdleFor(Key(cm));
      pconn := GetIdleConn(cm, others);
      TakeIsStackPop(cfg, t, Key(cm), BrokenIn(s));
      if pconn.Some? {
        assert Listed(t, Key(cm), pconn.value);
        return;
      }
      if dialed {
        var c := new PersistConn(Key(cm));
        pconn := Some(c);
      }
    }

    /** Closes every pooled connection and empties the pool; a pool never used stays unmade. */
    method CloseIdleConnections()
      requires Valid()
      modifies this`idleConn, Idle()
      ensures Valid()
      ensures forall c :: c in old(Idle()) ==> c.broken && c.connClosed
      ensures idleConn == if old(idleConn).None? then None else Some(map[])
    {
      if idleConn.None? {
        return;
      }
      var t := idleConn.value;
      var keys := t.Keys;
      while keys != {}
        invariant keys <= t.Keys && idleConn == Some(t)
        invariant forall key, c :: key in t && key !in keys && c in t[key] ==> c.broken && c.connClosed
        decreases keys
      {
        var key :| key in keys;
        for i := 0 to |t[key]|
          invariant idleConn == Some(t)
          invariant forall j :: 0 <= j < i ==> t[key][j].broken && t[key][j].connClosed
          invariant forall k, c :: k in t && k !in keys && c in t[k] ==> c.broken && c.connClosed
        {
          ListedIsIdle(key, t[key][i]);
          t[key][i].Close();
        }
        keys := keys - {key};
      }
      idleConn := Some(map[]);
    }
  }
}
