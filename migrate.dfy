/** `backend/src/migrate.js`: applies the `.sql` files of the migrations
 *  folder that the `db_migrations` table has not recorded yet, in name
 *  order, each with its record in one transaction, stopping at the first
 *  failure. */
module Migrate {
  import opened Wrappers
  import opened Strings
  import opened Directory

  // ------------------------------------------------------------ plan

  /** Places a name after every name that sorts no later. The same insertion
   *  sort orders backups newest first in `Backup.Sirala`; the two differ only
   *  in their order and element type. */
  function Yerlestir(xs: seq<string>, x: string): (r: seq<string>)
    ensures |r| == |xs| + 1
    ensures forall y :: y in r <==> y in xs || y == x
  {
    if xs == [] || Onde(xs[|xs| - 1], x) then xs + [x]
    else Yerlestir(xs[..|xs| - 1], x) + [xs[|xs| - 1]]
  }

  /** `Array.prototype.sort()` on file names. */
  function Sirala(xs: seq<string>): seq<string>
  {
    if xs == [] then [] else Yerlestir(Sirala(xs[..|xs| - 1]), xs[|xs| - 1])
  }

  predicate Sirali(xs: seq<string>)
  {
    forall i, j :: 0 <= i < j < |xs| ==> Onde(xs[i], xs[j])
  }

  lemma {:induction false} YerlestirSirali(xs: seq<string>, x: string)
    requires Sirali(xs)
    ensures Sirali(Yerlestir(xs, x))
  {
    if xs == [] {
    } else if Onde(xs[|xs| - 1], x) {
      forall i | 0 <= i < |xs| ensures Onde(xs[i], x) {
        if i < |xs| - 1 { OndeGecisli(xs[i], xs[|xs| - 1], x); }
      }
    } else {
      var init := xs[..|xs| - 1];
      var son := xs[|xs| - 1];
      OndeToplam(son, x);
      YerlestirSirali(init, x);
      var a := Yerlestir(init, x);
      forall i | 0 <= i < |a| ensures Onde(a[i], son) {
        assert a[i] in a;
        if a[i] != x {
          var k :| 0 <= k < |init| && init[k] == a[i];
          assert xs[k] == a[i];
        }
      }
    }
  }

  lemma {:induction false} YerlestirPerm(xs: seq<string>, x: string)
    ensures multiset(Yerlestir(xs, x)) == multiset(xs) + multiset{x}
  {
    if xs != [] && !Onde(xs[|xs| - 1], x) {
      var init := xs[..|xs| - 1];
      YerlestirPerm(init, x);
      assert xs == init + [xs[|xs| - 1]];
    }
  }

  lemma {:induction false} SiralaSirali(xs: seq<string>)
    ensures Sirali(Sirala(xs))
  {
    if xs != [] {
      SiralaSirali(xs[..|xs| - 1]);
      YerlestirSirali(Sirala(xs[..|xs| - 1]), xs[|xs| - 1]);
    }
  }

  lemma {:induction false} SiralaPerm(xs: seq<string>)
    ensures multiset(Sirala(xs)) == multiset(xs)
  {
    if xs != [] {
      var init := xs[..|xs| - 1];
      SiralaPerm(init);
      YerlestirPerm(Sirala(init), xs[|xs| - 1]);
      assert xs == init + [xs[|xs| - 1]];
    }
  }

  /** `.filter(f => f.endsWith('.sql'))`, in listing order. */
  function SqlDosyalari(names: seq<string>): (r: seq<string>)
    ensures forall f :: f in r <==> f in names && EndsWith(f, ".sql")
  {
    if names == [] then []
    else
      var son := names[|names| - 1];
      var onceki := SqlDosyalari(names[..|names| - 1]);
      assert forall f :: f in names <==> f in names[..|names| - 1] || f == son;
      if EndsWith(son, ".sql") then onceki + [son] else onceki
  }

  /** The files a run considers: the `.sql` files of the folder, sorted. */
  function Plan(names: seq<string>): seq<string>
  {
    Sirala(SqlDosyalari(names))
  }

  /** The plan is in ascending name order and holds exactly the `.sql`
   *  names of the listing. */
  lemma PlanDogru(names: seq<string>)
    ensures Sirali(Plan(names))
    ensures multiset(Plan(names)) == multiset(SqlDosyalari(names))
    ensures forall f :: f in Plan(names) <==> f in names && EndsWith(f, ".sql")
  {
    SiralaSirali(SqlDosyalari(names));
    SiralaPerm(SqlDosyalari(names));
    forall f ensures f in Plan(names) <==> f in SqlDosyalari(names) {
      assert f in Plan(names) <==> f in multiset(Plan(names));
      assert f in SqlDosyalari(names) <==> f in multiset(SqlDosyalari(names));
    }
  }

  // --------------------------------------------------------- version

  /** `file.replace('.sql', '')`: removes the FIRST occurrence of `.sql`,
   *  wherever it is. */
  function Surum(f: string): (v: string)
    ensures |v| <= |f|
    ensures !Contains(f, ".sql") ==> v == f
    ensures Contains(f, ".sql") ==> |v| == |f| - 4
    decreases |f|
  {
    if StartsWith(f, ".sql") then f[4..]
    else if f == [] then []
    else [f[0]] + Surum(f[1..])
  }

  /** For a name whose only `.sql` is its extension the version is the name
   *  without the extension. */
  lemma {:induction false} SurumUzantisiz(b: string)
    requires !Contains(b, ".sql")
    ensures Surum(b + ".sql") == b
  {
    var f := b + ".sql";
    if b == [] {
      assert f == ".sql";
    } else {
      assert !StartsWith(b, ".sql");
      assert !StartsWith(f, ".sql") by {
        if |b| >= 4 {
          assert f[..4] == b[..4];
        } else {
          assert f[|b|] == '.' && ".sql"[|b|] != '.';
        }
      }
      assert !Contains(b[1..], ".sql");
      SurumUzantisiz(b[1..]);
      assert f[1..] == b[1..] + ".sql";
    }
  }

  /** Two different files can share a version, since an inner `.sql` is the
   *  one removed. */
  lemma VersionsCanCollide()
    ensures Surum("a.sqlb.sql") == "ab.sql" && Surum("ab.sql.sql") == "ab.sql"
  {
    InnerSqlRemoved();
    OuterSqlRemoved();
  }

  /** `a.sqlb.sql` loses the `.sql` after the `a`. */
  lemma InnerSqlRemoved()
    ensures Surum("a.sqlb.sql") == "ab.sql"
  {
    assert StartsWith(".sqlb.sql", ".sql");
    assert "a.sqlb.sql"[0] == 'a';
    assert !StartsWith("a.sqlb.sql", ".sql");
    assert "a.sqlb.sql"[1..] == ".sqlb.sql";
    assert ".sqlb.sql"[4..] == "b.sql";
  }

  /** `ab.sql.sql` loses the first of its two `.sql`. */
  lemma OuterSqlRemoved()
    ensures Surum("ab.sql.sql") == "ab.sql"
  {
    assert StartsWith(".sql.sql", ".sql");
    assert "ab.sql.sql"[0] == 'a' && "b.sql.sql"[0] == 'b';
    assert !StartsWith("ab.sql.sql", ".sql") && !StartsWith("b.sql.sql", ".sql");
    assert "ab.sql.sql"[1..] == "b.sql.sql" && "b.sql.sql"[1..] == ".sql.sql";
    assert ".sql.sql"[4..] == ".sql";
  }

  // ----------------------------------------------------- description

  /** JavaScript's line terminators, which `.` does not match. */
  predicate SatirSonu(c: char)
  {
    c == '\n' || c == '\r' || c == '\U{2028}' || c == '\U{2029}'
  }

  /** The end of the longest run of `\s` from `i`. */
  function BoslukSonu(s: string, i: nat): (j: nat)
    requires i <= |s|
    ensures i <= j <= |s| && (j == |s| || !IsJsSpace(s[j]))
    ensures forall k :: i <= k < j ==> IsJsSpace(s[k])
    decreases |s| - i
  {
    if i == |s| || !IsJsSpace(s[i]) then i else BoslukSonu(s, i + 1)
  }

  /** The end of the longest run of non-terminators from `i`. */
  function SatirBitisi(s: string, i: nat): (j: nat)
    requires i <= |s|
    ensures i <= j <= |s| && (j == |s| || SatirSonu(s[j]))
    ensures forall k :: i <= k < j ==> !SatirSonu(s[k])
    decreases |s| - i
  {
    if i == |s| || SatirSonu(s[i]) then i else SatirBitisi(s, i + 1)
  }

  /** The last position in `[m, n)` that is not a line terminator. */
  function SonSatirIci(s: string, m: nat, n: nat): (p: Option<nat>)
    requires m <= n <= |s|
    ensures p.Some? ==> m <= p.value < n && !SatirSonu(s[p.value])
    ensures p.Some? ==> forall k :: p.value < k < n ==> SatirSonu(s[k])
    ensures p.None? ==> forall k :: m <= k < n ==> SatirSonu(s[k])
    decreases n - m
  {
    if n == m then None
    else if !SatirSonu(s[n - 1]) then Some(n - 1)
    else SonSatirIci(s, m, n - 1)
  }

  const Anahtar := "description:"

  /** `Description:` under the `i` flag: ASCII letters in either case. */
  predicate AnahtarMi(t: string)
  {
    |t| == |Anahtar| && forall i :: 0 <= i < |t| ==> LowerChar(t[i]) == Anahtar[i]
  }

  /** `/--\s*Description:\s*(.+)/i` tried at position `i`: the captured
   *  group, or nothing when the pattern does not match there. After the
   *  colon the greedy `\s*` takes every blank it can; when only blanks
   *  remain up to the end of the text it gives one back, so the group is
   *  the last blank that is not a line terminator. */
  function EslesmeAt(s: string, i: nat): (g: Option<string>)
    requires i <= |s|
    ensures g.Some? ==> |g.value| > 0 && forall k :: 0 <= k < |g.value| ==> !SatirSonu(g.value[k])
  {
    if i + 2 > |s| || s[i..i + 2] != "--" then None
    else
      var k := BoslukSonu(s, i + 2);
      if k + 12 > |s| || !AnahtarMi(s[k..k + 12]) then None
      else
        var n := BoslukSonu(s, k + 12);
        if n < |s| then
          assert !SatirSonu(s[n]);
          Some(s[n..SatirBitisi(s, n)])
        else
          match SonSatirIci(s, k + 12, n)
          case Some(p) => Some(s[p..p + 1])
          case None => None
  }

  /** The leftmost match from position `i` on. */
  function IlkEslesme(s: string, i: nat): Option<string>
    requires i <= |s|
    decreases |s| - i
  {
    match EslesmeAt(s, i)
    case Some(g) => Some(g)
    case None => if i == |s| then None else IlkEslesme(s, i + 1)
  }

  /** `descMatch ? descMatch[1].trim() : null`. */
  function Aciklama(sql: string): (r: Option<string>)
    ensures r.Some? ==> r.value == [] || (!IsJsSpace(r.value[0]) && !IsJsSpace(r.value[|r.value| - 1]))
  {
    match IlkEslesme(sql, 0)
    case Some(g) => Some(Trim(g))
    case None => None
  }

  /** A text without `--` has no description. */
  lemma {:induction false} NoDashesNoDescription(sql: string, i: nat)
    requires i <= |sql|
    requires forall k :: 0 <= k < |sql| - 1 ==> !(sql[k] == '-' && sql[k + 1] == '-')
    ensures IlkEslesme(sql, i) == None
    decreases |sql| - i
  {
    if i + 2 <= |sql| {
      assert sql[i..i + 2][0] == sql[i] && sql[i..i + 2][1] == sql[i + 1];
    }
    if i < |sql| {
      NoDashesNoDescription(sql, i + 1);
    }
  }

  /** The pattern matches at `i` when `--`, blanks, the keyword in any
   *  case and blanks are followed by a character that ends no line. */
  lemma {:induction false} MatchAt(s: string, i: nat, k: nat, n: nat)
    requires i + 2 <= |s| && s[i..i + 2] == "--" && BoslukSonu(s, i + 2) == k
    requires k + 12 <= |s| && AnahtarMi(s[k..k + 12]) && BoslukSonu(s, k + 12) == n && n < |s|
    ensures EslesmeAt(s, i) == Some(s[n..SatirBitisi(s, n)])
  {
  }

  /** The header `-- Description: <d>` on the first line gives `<d>`,
   *  trimmed, whatever the case of the keyword. */
  lemma HeaderDescription(kw: string, d: string, rest: string)
    requires AnahtarMi(kw)
    requires d != [] && !IsJsSpace(d[0]) && forall k :: 0 <= k < |d| ==> !SatirSonu(d[k])
    ensures Aciklama("-- " + kw + " " + d + "\n" + rest) == Some(Trim(d))
  {
    var a := "-- " + kw + " ";
    var s := a + d + "\n" + rest;
    assert "-- " + kw + " " + d + "\n" + rest == s;
    assert |a| == 16;
    assert s[..16] == a;
    assert s[0..2] == "--" by { assert a[0..2] == "--"; }
    assert !IsJsSpace(s[3]) by {
      assert s[3] == a[3] == kw[0];
      assert LowerChar(kw[0]) == Anahtar[0];
    }
    assert BoslukSonu(s, 2) == 3 by {
      assert IsJsSpace(s[2]);
    }
    assert s[3..15] == kw by { assert a[3..15] == kw; }
    assert BoslukSonu(s, 15) == 16 by {
      assert IsJsSpace(s[15]) && s[16] == d[0];
    }
    var e := 16 + |d|;
    assert s[16..e] == d;
    assert SatirBitisi(s, 16) == e by {
      assert s[e] == '\n';
      SatirBitisiTo(s, 16, e);
    }
    MatchAt(s, 0, 3, 16);
  }

  lemma {:induction false} SatirBitisiTo(s: string, i: nat, e: nat)
    requires i <= e < |s| && SatirSonu(s[e])
    requires forall k :: i <= k < e ==> !SatirSonu(s[k])
    ensures SatirBitisi(s, i) == e
    decreases e - i
  {
    if i < e {
      SatirBitisiTo(s, i + 1, e);
    }
  }

  lemma TrailingBlankMatch()
    ensures EslesmeAt("--description: ", 0) == Some(" ")
  {
    var s := "--description: ";
    assert s[0..2] == "--";
    assert !IsJsSpace(s[2]);
    assert s[2..14] == Anahtar;
    assert BoslukSonu(s, 14) == 15;
    assert SonSatirIci(s, 14, 15) == Some(14);
    assert s[14..15] == " ";
  }

  /** A keyword with nothing but blanks after it at the end of the file
   *  still matches: the description is then empty, not null. */
  lemma TrailingBlankGivesEmpty()
    ensures Aciklama("--description: ") == Some("")
  {
    TrailingBlankMatch();
    assert TrimStart(" ") == "";
  }

  // ------------------------------------------------------------- run

  /** A row of `db_migrations` (its `applied_at` is left to the database). */
  datatype Kayit = Kayit(version: string, description: Option<string>)

  /** The database as the runner changes it: the migration records and, in
   *  order, the SQL texts it executed. */
  datatype Vt = Vt(rows: seq<Kayit>, executed: seq<string>)

  /** The versions recorded in the table. */
  function Surumler(rows: seq<Kayit>): set<string>
  {
    set r | r in rows :: r.version
  }

  /** How a run ends: no folder, no `.sql` file, done with the number of
   *  newly applied files, or thrown at the version whose transaction
   *  failed. */
  datatype Sonuc = DizinYok | DosyaYok | Tamam(appliedCount: nat) | Hata(version: string)

  /** The loop over the planned files, from the state `vt` with `sayac`
   *  files applied so far. `applied` is the set of versions read before
   *  the loop; `fails` are the files whose SQL throws. The record insert
   *  also fails when this run already recorded the same version (`UNIQUE`).
   *  A failed transaction changes nothing and ends the run. */
  function Calistir(applied: set<string>, vt: Vt, files: seq<string>, sqls: map<string, string>,
                    fails: set<string>, sayac: nat): (r: (Sonuc, Vt))
    requires forall f :: f in files ==> f in sqls
    ensures r.0.Tamam? || r.0.Hata?
    ensures |r.1.rows| - |vt.rows| == |r.1.executed| - |vt.executed| >= 0
    ensures r.1.rows[..|vt.rows|] == vt.rows && r.1.executed[..|vt.executed|] == vt.executed
    ensures r.0.Tamam? ==> r.0.appliedCount == sayac + |r.1.rows| - |vt.rows|
    decreases |files|
  {
    if files == [] then (Tamam(sayac), vt)
    else
      var f := files[0];
      var v := Surum(f);
      if v in applied then Calistir(applied, vt, files[1..], sqls, fails, sayac)
      else if f in fails || v in Surumler(vt.rows) then (Hata(v), vt)
      else
        var vt' := Vt(vt.rows + [Kayit(v, Aciklama(sqls[f]))], vt.executed + [sqls[f]]);
        var r := Calistir(applied, vt', files[1..], sqls, fails, sayac + 1);
        assert r.1.rows[..|vt.rows|] == vt'.rows[..|vt.rows|];
        assert r.1.executed[..|vt.executed|] == vt'.executed[..|vt.executed|];
        r
  }

  /** `runMigrations` on a database `vt`, a folder that exists or not, its
   *  listing and the contents of its files. */
  function Calistirma(vt: Vt, dizinVar: bool, names: seq<string>, sqls: map<string, string>,
                      fails: set<string>): (Sonuc, Vt)
    requires forall f :: f in names ==> f in sqls
  {
    if !dizinVar then (DizinYok, vt)
    else
      var files := Plan(names);
      PlanDogru(names);
      if files == [] then (DosyaYok, vt)
      else Calistir(Surumler(vt.rows), vt, files, sqls, fails, 0)
  }

  /** The number of files whose version was not recorded before the run. */
  function Yeni(applied: set<string>, files: seq<string>): nat
  {
    if files == [] then 0
    else (if Surum(files[0]) in applied then 0 else 1) + Yeni(applied, files[1..])
  }

  /** A run that finishes has applied exactly the files it had not seen. */
  lemma {:induction false} AppliedCountIsNew(applied: set<string>, vt: Vt, files: seq<string>,
                                            sqls: map<string, string>, fails: set<string>, sayac: nat)
    requires forall f :: f in files ==> f in sqls
    requires Calistir(applied, vt, files, sqls, fails, sayac).0.Tamam?
    ensures Calistir(applied, vt, files, sqls, fails, sayac).0.appliedCount == sayac + Yeni(applied, files)
    decreases |files|
  {
    if files != [] {
      var f := files[0];
      var v := Surum(f);
      if v in applied {
        AppliedCountIsNew(applied, vt, files[1..], sqls, fails, sayac);
      } else {
        var vt' := Vt(vt.rows + [Kayit(v, Aciklama(sqls[f]))], vt.executed + [sqls[f]]);
        AppliedCountIsNew(applied, vt', files[1..], sqls, fails, sayac + 1);
      }
    }
  }

  /** After a run that finishes, every planned file's version is recorded. */
  lemma {:induction false} FinishedRunRecordsAll(applied: set<string>, vt: Vt, files: seq<string>,
                                                sqls: map<string, string>, fails: set<string>, sayac: nat)
    requires forall f :: f in files ==> f in sqls
    requires applied <= Surumler(vt.rows)
    requires Calistir(applied, vt, files, sqls, fails, sayac).0.Tamam?
    ensures forall f :: f in files ==> Surum(f) in Surumler(Calistir(applied, vt, files, sqls, fails, sayac).1.rows)
    ensures Surumler(vt.rows) <= Surumler(Calistir(applied, vt, files, sqls, fails, sayac).1.rows)
    decreases |files|
  {
    if files != [] {
      var f := files[0];
      var v := Surum(f);
      var r := Calistir(applied, vt, files, sqls, fails, sayac);
      if v in applied {
        FinishedRunRecordsAll(applied, vt, files[1..], sqls, fails, sayac);
      } else {
        var k := Kayit(v, Aciklama(sqls[f]));
        var vt' := Vt(vt.rows + [k], vt.executed + [sqls[f]]);
        assert k in vt'.rows;
        assert Surumler(vt.rows) + {v} <= Surumler(vt'.rows);
        FinishedRunRecordsAll(applied, vt', files[1..], sqls, fails, sayac + 1);
      }
      forall g | g in files ensures Surum(g) in Surumler(r.1.rows) {
        if g != f { assert g in files[1..]; }
      }
    }
  }

  /** When every planned version is recorded, a run applies nothing. */
  lemma {:induction false} NothingNewAppliesNone(applied: set<string>, vt: Vt, files: seq<string>,
                                                sqls: map<string, string>, fails: set<string>, sayac: nat)
    requires forall f :: f in files ==> f in sqls && Surum(f) in applied
    ensures Calistir(applied, vt, files, sqls, fails, sayac) == (Tamam(sayac), vt)
    decreases |files|
  {
    if files != [] {
      NothingNewAppliesNone(applied, vt, files[1..], sqls, fails, sayac);
    }
  }

  /** A second run over the same folder, after one that finished, applies 0
   *  files and changes nothing, whatever would fail. */
  lemma SecondRunAppliesNone(vt: Vt, names: seq<string>, sqls: map<string, string>,
                             fails: set<string>, fails2: set<string>)
    requires forall f :: f in names ==> f in sqls
    requires Calistirma(vt, true, names, sqls, fails).0.Tamam?
    ensures var vt2 := Calistirma(vt, true, names, sqls, fails).1;
      Calistirma(vt2, true, names, sqls, fails2) == (Tamam(0), vt2)
  {
    var files := Plan(names);
    PlanDogru(names);
    var vt2 := Calistirma(vt, true, names, sqls, fails).1;
    if files != [] {
      FinishedRunRecordsAll(Surumler(vt.rows), vt, files, sqls, fails, 0);
      NothingNewAppliesNone(Surumler(vt2.rows), vt2, files, sqls, fails2, 0);
    }
  }

  /** A failed run keeps what the files before the failing one applied,
   *  and the failing file and all later ones leave no trace: the outcome is
   *  that of the files up to the failing one, `k` being its position. */
  lemma {:induction false} FailureKeepsEarlier(applied: set<string>, vt: Vt, files: seq<string>,
                                              sqls: map<string, string>, fails: set<string>, sayac: nat)
    returns (k: nat)
    requires forall f :: f in files ==> f in sqls
    requires Calistir(applied, vt, files, sqls, fails, sayac).0.Hata?
    ensures k < |files| && Surum(files[k]) == Calistir(applied, vt, files, sqls, fails, sayac).0.version
    ensures Calistir(applied, vt, files[..k], sqls, fails, sayac).0.Tamam?
    ensures Calistir(applied, vt, files[..k], sqls, fails, sayac).1 == Calistir(applied, vt, files, sqls, fails, sayac).1
    ensures Calistir(applied, vt, files[..k + 1], sqls, fails, sayac) == Calistir(applied, vt, files, sqls, fails, sayac)
    decreases |files|, 1
  {
    var f := files[0];
    var v := Surum(f);
    if v in applied || !(f in fails || v in Surumler(vt.rows)) {
      k := FailureLater(applied, vt, files, sqls, fails, sayac);
    } else {
      k := 0;
      FailureFirst(applied, vt, files, sqls, fails, sayac);
    }
  }

  /** `FailureKeepsEarlier` when the first file fails. */
  lemma FailureFirst(applied: set<string>, vt: Vt, files: seq<string>,
                     sqls: map<string, string>, fails: set<string>, sayac: nat)
    requires forall f :: f in files ==> f in sqls
    requires files != [] && Surum(files[0]) !in applied
    requires files[0] in fails || Surum(files[0]) in Surumler(vt.rows)
    ensures Calistir(applied, vt, files, sqls, fails, sayac) == (Hata(Surum(files[0])), vt)
    ensures Calistir(applied, vt, files[..1], sqls, fails, sayac) == (Hata(Surum(files[0])), vt)
    ensures Calistir(applied, vt, files[..0], sqls, fails, sayac) == (Tamam(sayac), vt)
  {
    assert files[..1][0] == files[0];
    assert files[..0] == [];
  }

  /** `FailureKeepsEarlier` when the first file is skipped or applied: the
   *  failure lies among the later files. */
  lemma {:induction false} FailureLater(applied: set<string>, vt: Vt, files: seq<string>,
                                       sqls: map<string, string>, fails: set<string>, sayac: nat)
    returns (k: nat)
    requires forall f :: f in files ==> f in sqls
    requires Calistir(applied, vt, files, sqls, fails, sayac).0.Hata?
    requires files != [] && (Surum(files[0]) in applied || !(files[0] in fails || Surum(files[0]) in Surumler(vt.rows)))
    ensures k < |files| && Surum(files[k]) == Calistir(applied, vt, files, sqls, fails, sayac).0.version
    ensures Calistir(applied, vt, files[..k], sqls, fails, sayac).0.Tamam?
    ensures Calistir(applied, vt, files[..k], sqls, fails, sayac).1 == Calistir(applied, vt, files, sqls, fails, sayac).1
    ensures Calistir(applied, vt, files[..k + 1], sqls, fails, sayac) == Calistir(applied, vt, files, sqls, fails, sayac)
    decreases |files|, 0
  {
    var f := files[0];
    var v := Surum(f);
    var vt', sayac' := vt, sayac;
    if v !in applied {
      vt' := Vt(vt.rows + [Kayit(v, Aciklama(sqls[f]))], vt.executed + [sqls[f]]);
      sayac' := sayac + 1;
    }
    assert forall g :: g in files[1..] ==> g in files;
    var j := FailureKeepsEarlier(applied, vt', files[1..], sqls, fails, sayac');
    k := j + 1;
    Kaydir(applied, vt, vt', files, sqls, fails, sayac, sayac', k);
    Kaydir(applied, vt, vt', files, sqls, fails, sayac, sayac', k + 1);
  }

  /** Running a prefix of `m` files whose first one was skipped or applied
   *  is running the next `m - 1` files from the state after it. */
  lemma Kaydir(applied: set<string>, vt: Vt, vt': Vt, files: seq<string>, sqls: map<string, string>,
               fails: set<string>, sayac: nat, sayac': nat, m: nat)
    requires forall f :: f in files ==> f in sqls
    requires 1 <= m <= |files|
    requires var v := Surum(files[0]);
      || (v in applied && vt' == vt && sayac' == sayac)
      || (v !in applied && files[0] !in fails && v !in Surumler(vt.rows) && sayac' == sayac + 1
          && vt' == Vt(vt.rows + [Kayit(v, Aciklama(sqls[files[0]]))], vt.executed + [sqls[files[0]]]))
    ensures Calistir(applied, vt, files[..m], sqls, fails, sayac)
         == Calistir(applied, vt', files[1..][..m - 1], sqls, fails, sayac')
  {
    assert files[..m][1..] == files[1..][..m - 1];
    assert files[..m][0] == files[0];
  }

  // ----------------------------------------------------------- runner

  class Runner {
    /** The `db_migrations` rows, oldest first. */
    var rows: seq<Kayit>
    /** The migration SQL executed against the database, in order. */
    var executed: seq<string>

    /** `CREATE TABLE IF NOT EXISTS db_migrations` on a fresh database. */
    constructor ()
      ensures rows == [] && executed == []
    {
      rows := [];
      executed := [];
    }

    /** `runMigrations`: reads the recorded versions once, plans the `.sql`
     *  files in name order and applies the unseen ones one transaction at a
     *  time, stopping at the first that throws. */
    method RunMigrations(dizinVar: bool, names: seq<string>, sqls: map<string, string>, fails: set<string>)
      returns (r: Sonuc)
      requires Listeler(names, sqls)
      modifies this
      ensures (r, Vt(rows, executed)) == Calistirma(old(Vt(rows, executed)), dizinVar, names, sqls, fails)
    {
      var applied := Surumler(rows);
      if !dizinVar {
        return DizinYok;
      }
      var files := Plan(names);
      PlanDogru(names);
      if |files| == 0 {
        return DosyaYok;
      }
      ghost var vt0 := Vt(rows, executed);
      var appliedCount := 0;
      var i := 0;
      while i < |files|
        invariant 0 <= i <= |files|
        invariant Calistir(applied, vt0, files, sqls, fails, 0)
               == Calistir(applied, Vt(rows, executed), files[i..], sqls, fails, appliedCount)
      {
        var file := files[i];
        assert files[i..][1..] == files[i + 1..];
        var version := Surum(file);
        if version in applied {
          i := i + 1;
          continue;
        }
        var sql := sqls[file];
        if file in fails || version in Surumler(rows) {
          return Hata(version);
        }
        executed := executed + [sql];
        rows := rows + [Kayit(version, Aciklama(sql))];
        appliedCount := appliedCount + 1;
        i := i + 1;
      }
      assert files[i..] == [];
      return Tamam(appliedCount);
    }
  }
}
