/** The "Time Entry" tab: one row per client, column A holding the client name, each new row
    cloned from a template row (Code.js:609-669). */
module TimeEntry {
  import opened Text
  import opened Cells
  import opened Sheets

  /** TIME_ENTRY_TEMPLATE_ROW. The helper's doc comment still speaks of Row 2; the constant is 3. */
  const TemplateRow: nat := 3
  const NameCol: nat := 1

  /** The normalised names of rows 2..lastRow, `(r[0] || '').toString().trim().toLowerCase()`. */
  function NameKeys(rows: seq<Row>): (keys: seq<string>)
    ensures |keys| == if |rows| == 0 then 0 else |rows| - 1
  {
    if |rows| <= 1 then []
    else NameKeys(rows[..|rows| - 1]) + [KeyOrBlank(ValueAt(rows[|rows| - 1], NameCol))]
  }

  lemma NameKeysAppend(rows: seq<Row>, row: Row)
    requires |rows| >= 1
    ensures NameKeys(rows + [row]) == NameKeys(rows) + [KeyOrBlank(ValueAt(row, NameCol))]
  {
    assert (rows + [row])[..|rows|] == rows;
  }

  /** How often `k` occurs in `keys`. */
  function Count(keys: seq<string>, k: string): nat
  {
    if keys == [] then 0
    else Count(keys[..|keys| - 1], k) + (if keys[|keys| - 1] == k then 1 else 0)
  }

  lemma {:induction false} CountZero(keys: seq<string>, k: string)
    ensures (Count(keys, k) == 0) == (k !in keys)
  {
    if keys != [] {
      assert keys == keys[..|keys| - 1] + [keys[|keys| - 1]];
      CountZero(keys[..|keys| - 1], k);
    }
  }

  /** The row added for a new client: template row 3 as it stands once the blank row is in
      place (a blank row when the tab has fewer than three rows), with column A set to the
      name exactly as given. */
  function NewEntryRow(rows: seq<Row>, clientName: Value): Row
  {
    WithCell(RowAt(rows, TemplateRow), NameCol, Plain(clientName))
  }

  datatype Outcome = Outcome(rows: seq<Row>, added: bool)

  /** ensureClientInTimeEntry_ on the tab's rows: nothing for a blank name or a name already
      present after normalisation, otherwise one row appended below the last. */
  function Ensure(rows: seq<Row>, clientName: Value): Outcome
  {
    var target := KeyOrBlank(clientName);
    if target == "" || target in NameKeys(rows) then Outcome(rows, false)
    else Outcome(rows + [NewEntryRow(rows, clientName)], true)
  }

  /** The row Ensure appends carries the client's key in column A. */
  lemma NewEntryKeys(rows: seq<Row>, clientName: Value)
    requires |rows| >= 1
    ensures NameKeys(rows + [NewEntryRow(rows, clientName)]) == NameKeys(rows) + [KeyOrBlank(clientName)]
  {
    var row := NewEntryRow(rows, clientName);
    assert (rows + [row])[..|rows|] == rows;
    assert ValueAt(row, NameCol) == clientName;
  }

  /** Ensure only ever appends: the rows it was given come first, unchanged. */
  lemma EnsureKeepsRows(rows: seq<Row>, clientName: Value)
    ensures Ensure(rows, clientName).rows[..|rows|] == rows
  {
    if Ensure(rows, clientName).added {
      assert (rows + [NewEntryRow(rows, clientName)])[..|rows|] == rows;
    }
  }

  /** After Ensure, the normalised name is present. */
  lemma EnsurePresent(rows: seq<Row>, clientName: Value)
    requires |rows| >= 1
    requires KeyOrBlank(clientName) != ""
    ensures KeyOrBlank(clientName) in NameKeys(Ensure(rows, clientName).rows)
  {
    var t := KeyOrBlank(clientName);
    var keys := NameKeys(rows);
    if t !in keys {
      NewEntryKeys(rows, clientName);
      assert (keys + [t])[|keys|] == t;
    }
  }

  /** A second call with the same name is a no-op: it adds nothing and changes nothing. */
  lemma EnsureIdempotent(rows: seq<Row>, clientName: Value)
    requires |rows| >= 1
    ensures var once := Ensure(rows, clientName);
            Ensure(once.rows, clientName) == Outcome(once.rows, false)
  {
    if KeyOrBlank(clientName) != "" {
      EnsurePresent(rows, clientName);
    }
  }

  lemma CountSnoc(keys: seq<string>, k: string, x: string)
    ensures Count(keys + [x], k) == Count(keys, k) + if x == k then 1 else 0
  {
    assert (keys + [x])[..|keys|] == keys;
  }

  /** The keys after Ensure: unchanged when the name was present, one more otherwise. */
  lemma EnsureKeys(rows: seq<Row>, clientName: Value)
    requires |rows| >= 1 && KeyOrBlank(clientName) != ""
    ensures NameKeys(Ensure(rows, clientName).rows) ==
            if KeyOrBlank(clientName) in NameKeys(rows) then NameKeys(rows) else NameKeys(rows) + [KeyOrBlank(clientName)]
  {
    if KeyOrBlank(clientName) !in NameKeys(rows) {
      NewEntryKeys(rows, clientName);
    }
  }

  /** If the name occurred at most once, it occurs exactly once afterwards: no duplicate row. */
  lemma EnsureExactlyOnce(rows: seq<Row>, clientName: Value)
    requires |rows| >= 1
    requires KeyOrBlank(clientName) != ""
    requires Count(NameKeys(rows), KeyOrBlank(clientName)) <= 1
    ensures Count(NameKeys(Ensure(rows, clientName).rows), KeyOrBlank(clientName)) == 1
  {
    EnsureKeys(rows, clientName);
    CountOnce(NameKeys(rows), KeyOrBlank(clientName));
  }

  /** Adding `t` to keys only when it is missing leaves it occurring once, if it occurred at most once. */
  lemma CountOnce(keys: seq<string>, t: string)
    requires Count(keys, t) <= 1
    ensures Count(if t in keys then keys else keys + [t], t) == 1
  {
    CountZero(keys, t);
    if t !in keys {
      CountSnoc(keys, t, t);
    }
  }

  lemma EnsureAppends(rows: seq<Row>, clientName: Value)
    requires KeyOrBlank(clientName) != "" && KeyOrBlank(clientName) !in NameKeys(rows)
    ensures Ensure(rows, clientName) == Outcome(rows + [NewEntryRow(rows, clientName)], true)
  {
  }

  /** Ensure adds at most one row, and only for a name whose key is not blank. */
  lemma EnsureGrows(rows: seq<Row>, clientName: Value)
    ensures var o := Ensure(rows, clientName);
            |o.rows| == |rows| + (if o.added then 1 else 0) && (o.added ==> KeyOrBlank(clientName) != "")
  {
  }

  /** The insertion half of ensureClientInTimeEntry_: a blank row below the last one, the
      template row copied onto it, then the name written into column A. */
  method AppendEntryRow(te: Sheet, clientName: Value)
    requires te.Valid() && |te.rows| >= 1
    modifies te
    ensures te.Valid()
    ensures te.rows == old(te.rows) + [NewEntryRow(old(te.rows), clientName)]
    ensures te.maxRows == old(te.maxRows) + 1
    ensures te.hidden == ShiftedAfter(old(te.hidden), |old(te.rows)|, 1)
  {
    var lastRow := te.LastRow();
    te.InsertRowAfter(lastRow);
    assert te.rows == old(te.rows);
    var cloned := WithCell(RowAt(te.rows, TemplateRow), NameCol, Plain(clientName));
    PutRowAppends(te.rows, cloned);
    te.SetRow(lastRow + 1, cloned);
  }

  /** ensureClientInTimeEntry_(clientName). On a tab with no row at all a new name cannot be
      inserted: `insertRowAfter(0)` fails, and the error propagates with the tab unchanged. */
  method EnsureClientInTimeEntry(te: Sheet, clientName: Value) returns (r: Result<bool>)
    requires te.Valid()
    modifies te
    ensures te.Valid()
    ensures r.Err? <==> |old(te.rows)| == 0 && KeyOrBlank(clientName) != ""
    ensures r.Err? ==> r.error == RowOutOfBounds &&
                       te.rows == old(te.rows) && te.maxRows == old(te.maxRows) && te.hidden == old(te.hidden)
    ensures r.Ok? ==> Outcome(te.rows, r.value) == Ensure(old(te.rows), clientName)
    ensures r == Ok(true) ==> te.maxRows == old(te.maxRows) + 1 && te.hidden == ShiftedAfter(old(te.hidden), |old(te.rows)|, 1)
    ensures r == Ok(false) ==> te.maxRows == old(te.maxRows) && te.hidden == old(te.hidden)
  {
    var lastRow := te.LastRow();
    var names: seq<string> := [];
    if lastRow >= 2 {
      names := NameKeys(te.rows);
    }
    var target := KeyOrBlank(clientName);
    if target == "" || target in names {
      return Ok(false);
    }
    if lastRow == 0 {
      return Err(RowOutOfBounds);
    }
    AppendEntryRow(te, clientName);
    r := Ok(true);
  }

  datatype Synced = Synced(rows: seq<Row>, added: nat)

  /** syncAllClientsToTimeEntry's loop over the tracker names, one Ensure per true-ish name,
      each one seeing the rows the earlier ones added. */
  function SyncNames(rows: seq<Row>, names: seq<Value>): Synced
  {
    if names == [] then Synced(rows, 0)
    else
      var s := SyncNames(rows, names[..|names| - 1]);
      var v := names[|names| - 1];
      if Truthy(v) then
        var o := Ensure(s.rows, v);
        Synced(o.rows, s.added + if o.added then 1 else 0)
      else s
  }

  /** One more name: the fold continues from where the shorter prefix left the rows. */
  lemma SyncStep(rows: seq<Row>, names: seq<Value>, i: nat)
    requires i < |names|
    ensures var s := SyncNames(rows, names[..i]);
            SyncNames(rows, names[..i + 1]) ==
              if Truthy(names[i]) then
                var o := Ensure(s.rows, names[i]);
                Synced(o.rows, s.added + if o.added then 1 else 0)
              else s
  {
    assert names[..i + 1][..i] == names[..i];
  }

  /** The fold over one more name. */
  lemma SyncOne(rows: seq<Row>, names: seq<Value>, v: Value)
    ensures var s := SyncNames(rows, names);
            SyncNames(rows, names + [v]) ==
              if Truthy(v) then
                var o := Ensure(s.rows, v);
                Synced(o.rows, s.added + if o.added then 1 else 0)
              else s
  {
    assert (names + [v])[..|names|] == names;
  }

  /** The sync only appends: one row per name it reports as added, the earlier rows kept. */
  lemma {:induction false} SyncAppends(rows: seq<Row>, names: seq<Value>)
    requires |rows| >= 1
    ensures var s := SyncNames(rows, names);
            |s.rows| == |rows| + s.added && s.rows[..|rows|] == rows && s.added <= |names|
  {
    if names != [] {
      SyncAppends(rows, names[..|names| - 1]);
    }
  }

  /** After the sync every tracker name with a non-blank key has its row, and the keys present
      before are all still there. */
  lemma {:induction false} SyncPresent(rows: seq<Row>, names: seq<Value>)
    requires |rows| >= 1
    ensures forall k | k in NameKeys(rows) :: k in NameKeys(SyncNames(rows, names).rows)
    ensures forall i | 0 <= i < |names| && KeyOrBlank(names[i]) != "" ::
              KeyOrBlank(names[i]) in NameKeys(SyncNames(rows, names).rows)
  {
    if names != [] {
      var init := names[..|names| - 1];
      var s := SyncNames(rows, init);
      var v := names[|names| - 1];
      SyncPresent(rows, init);
      SyncAppends(rows, init);
      if Truthy(v) {
        KeysKept(s.rows, v);
        if KeyOrBlank(v) != "" {
          EnsurePresent(s.rows, v);
        }
      }
      forall i | 0 <= i < |names| && KeyOrBlank(names[i]) != ""
        ensures KeyOrBlank(names[i]) in NameKeys(SyncNames(rows, names).rows)
      {
        if i < |names| - 1 {
          assert names[i] == init[i];
        } else {
          NonBlankKeyIsTruthy(v);
        }
      }
    }
  }

  lemma KeysKept(rows: seq<Row>, clientName: Value)
    requires |rows| >= 1
    ensures forall k | k in NameKeys(rows) :: k in NameKeys(Ensure(rows, clientName).rows)
  {
    if Ensure(rows, clientName).added {
      NameKeysAppend(rows, NewEntryRow(rows, clientName));
    }
  }

  /** A sync over names that are all present already changes nothing. */
  lemma {:induction false} SyncAllPresent(rows: seq<Row>, names: seq<Value>)
    requires forall i | 0 <= i < |names| :: KeyOrBlank(names[i]) == "" || KeyOrBlank(names[i]) in NameKeys(rows)
    ensures SyncNames(rows, names) == Synced(rows, 0)
  {
    if names != [] {
      SyncAllPresent(rows, names[..|names| - 1]);
    }
  }

  /** Running the sync twice: the second run adds nothing and leaves the tab as the first left it. */
  lemma SyncIdempotent(rows: seq<Row>, names: seq<Value>)
    requires |rows| >= 1
    ensures var once := SyncNames(rows, names);
            SyncNames(once.rows, names) == Synced(once.rows, 0)
  {
    SyncPresent(rows, names);
    SyncAllPresent(SyncNames(rows, names).rows, names);
  }

  /** Because each call re-reads the tab, two tracker names that differ only in case or
      surrounding spaces produce a single time-entry row. */
  lemma SyncMergesVariants(rows: seq<Row>, a: Value, b: Value)
    requires |rows| >= 1
    requires KeyOrBlank(a) != "" && KeyOrBlank(a) == KeyOrBlank(b)
    requires KeyOrBlank(a) !in NameKeys(rows)
    ensures SyncNames(rows, [a, b]).added == 1
  {
    SyncFirstAdds(rows, a);
    SyncSkipsPresent(rows, [a], b);
    assert [a] + [b] == [a, b];
  }

  lemma SyncFirstAdds(rows: seq<Row>, a: Value)
    requires |rows| >= 1
    requires KeyOrBlank(a) != "" && KeyOrBlank(a) !in NameKeys(rows)
    ensures SyncNames(rows, [a]).added == 1
    ensures KeyOrBlank(a) in NameKeys(SyncNames(rows, [a]).rows)
  {
    NonBlankKeyIsTruthy(a);
    SyncOne(rows, [], a);
    assert [] + [a] == [a];
    EnsurePresent(rows, a);
  }

  /** A name whose key the tab already holds leaves the sync's result as it was. */
  lemma SyncSkipsPresent(rows: seq<Row>, names: seq<Value>, v: Value)
    requires KeyOrBlank(v) in NameKeys(SyncNames(rows, names).rows)
    ensures SyncNames(rows, names + [v]) == SyncNames(rows, names)
  {
    SyncOne(rows, names, v);
  }

  /** "Acme" and "ACME " are such a pair. */
  lemma AcmeVariants()
    ensures KeyOrBlank(Str("Acme")) == KeyOrBlank(Str("ACME ")) == "acme"
  {
    AcmeKey();
    AcmeUpperKey();
  }

  lemma AcmeKey()
    ensures KeyOrBlank(Str("Acme")) == "acme"
  {
    assert Trim("Acme") == "Acme" by {
      TrimStartNoop("Acme");
      TrimEndNoop("Acme");
    }
  }

  lemma AcmeUpperKey()
    ensures KeyOrBlank(Str("ACME ")) == "acme"
  {
    assert Trim("ACME ") == "ACME" by {
      TrimStartNoop("ACME ");
      assert "ACME "[..4] == "ACME";
      TrimEndNoop("ACME");
    }
  }

  /** One step of the sync: `clientName && ensureClientInTimeEntry_(clientName)`. */
  method SyncName(te: Sheet, clientName: Value) returns (r: Result<bool>)
    requires te.Valid()
    modifies te
    ensures te.Valid()
    ensures r.Err? <==> |old(te.rows)| == 0 && KeyOrBlank(clientName) != ""
    ensures r.Err? ==> te.rows == old(te.rows) && te.maxRows == old(te.maxRows) && te.hidden == old(te.hidden)
    ensures r.Ok? ==> Outcome(te.rows, r.value) ==
                        if Truthy(clientName) then Ensure(old(te.rows), clientName) else Outcome(old(te.rows), false)
    ensures r == Ok(true) ==> te.maxRows == old(te.maxRows) + 1 && te.hidden == ShiftedAfter(old(te.hidden), |old(te.rows)|, 1)
    ensures r == Ok(false) ==> te.maxRows == old(te.maxRows) && te.hidden == old(te.hidden)
  {
    if Truthy(clientName) {
      r := EnsureClientInTimeEntry(te, clientName);
    } else {
      KeyOrBlankAgrees(clientName);
      r := Ok(false);
    }
  }

  /** No name has a non-blank key. */
  predicate AllBlank(names: seq<Value>)
  {
    forall j | 0 <= j < |names| :: KeyOrBlank(names[j]) == ""
  }

  lemma AllBlankSnoc(names: seq<Value>, i: nat)
    requires i < |names| && AllBlank(names[..i]) && KeyOrBlank(names[i]) == ""
    ensures AllBlank(names[..i + 1])
  {
    assert names[..i + 1] == names[..i] + [names[i]];
  }

  /** The tab after a sync over `names`, starting from `rows0` on a grid of `maxRows0` rows
      with `hidden0` hidden: the fold's rows and count, the grid grown by one row per row added
      below the old last row, and the hidden rows below it shifted down accordingly. */
  datatype Tab = Tab(rows: seq<Row>, added: nat, maxRows: nat, hidden: set<nat>)

  function SyncedTab(rows0: seq<Row>, maxRows0: nat, hidden0: set<nat>, names: seq<Value>): Tab
  {
    var s := SyncNames(rows0, names);
    Tab(s.rows, s.added, maxRows0 + s.added, ShiftedAfter(hidden0, |rows0|, s.added))
  }

  lemma SyncedTabStart(rows0: seq<Row>, maxRows0: nat, hidden0: set<nat>)
    ensures SyncedTab(rows0, maxRows0, hidden0, []) == Tab(rows0, 0, maxRows0, hidden0)
  {
    ShiftedAfterZero(hidden0, |rows0|);
  }

  /** One more name folded in, with the grid grown by the row it added, if any. */
  lemma SyncedTabGrow(rows0: seq<Row>, maxRows0: nat, hidden0: set<nat>, names: seq<Value>, i: nat, added: nat,
                      rows: seq<Row>, maxRows: nat, hidden: set<nat>,
                      v: bool, rows': seq<Row>, maxRows': nat, hidden': set<nat>)
    requires i < |names| && |rows| == |rows0| + added
    requires Tab(rows, added, maxRows, hidden) == SyncedTab(rows0, maxRows0, hidden0, names[..i])
    requires Synced(rows', added + if v then 1 else 0) == SyncNames(rows0, names[..i + 1])
    requires v ==> maxRows' == maxRows + 1 && hidden' == ShiftedAfter(hidden, |rows|, 1)
    requires !v ==> maxRows' == maxRows && hidden' == hidden
    ensures Tab(rows', added + (if v then 1 else 0), maxRows', hidden') == SyncedTab(rows0, maxRows0, hidden0, names[..i + 1])
  {
    if v {
      ShiftedAfterStep(hidden0, |rows0|, added);
    }
  }

  /** One name handled without error, as SyncName promises, moves the tab on by one name. */
  lemma SyncedTabStep(rows0: seq<Row>, maxRows0: nat, hidden0: set<nat>, names: seq<Value>, i: nat, added: nat,
                      rows: seq<Row>, maxRows: nat, hidden: set<nat>,
                      v: bool, rows': seq<Row>, maxRows': nat, hidden': set<nat>)
    requires i < |names| && |rows| == |rows0| + added
    requires Tab(rows, added, maxRows, hidden) == SyncedTab(rows0, maxRows0, hidden0, names[..i])
    requires Outcome(rows', v) == if Truthy(names[i]) then Ensure(rows, names[i]) else Outcome(rows, false)
    requires v ==> maxRows' == maxRows + 1 && hidden' == ShiftedAfter(hidden, |rows|, 1)
    requires !v ==> maxRows' == maxRows && hidden' == hidden
    ensures |rows'| == |rows0| + added + (if v then 1 else 0)
    ensures Tab(rows', added + (if v then 1 else 0), maxRows', hidden') == SyncedTab(rows0, maxRows0, hidden0, names[..i + 1])
    ensures v ==> KeyOrBlank(names[i]) != ""
  {
    StepFold(rows0, names, i, added, rows, v, rows');
    SyncedTabGrow(rows0, maxRows0, hidden0, names, i, added, rows, maxRows, hidden, v, rows', maxRows', hidden');
  }

  /** The fold half of SyncedTabStep. */
  lemma StepFold(rows0: seq<Row>, names: seq<Value>, i: nat, added: nat, rows: seq<Row>, v: bool, rows': seq<Row>)
    requires i < |names| && Synced(rows, added) == SyncNames(rows0, names[..i])
    requires Outcome(rows', v) == if Truthy(names[i]) then Ensure(rows, names[i]) else Outcome(rows, false)
    ensures |rows'| == |rows| + (if v then 1 else 0)
    ensures Synced(rows', added + if v then 1 else 0) == SyncNames(rows0, names[..i + 1])
    ensures v ==> KeyOrBlank(names[i]) != ""
  {
    EnsureGrows(rows, names[i]);
    SyncStep(rows0, names, i);
  }

  /** On a tab that started with no row, a name that got through added nothing. */
  lemma StepBlank(rows0: seq<Row>, names: seq<Value>, i: nat, added: nat, v: bool)
    requires i < |names| && (|rows0| == 0 ==> added == 0 && AllBlank(names[..i]))
    requires v ==> KeyOrBlank(names[i]) != ""
    requires !(|rows0| + added == 0 && KeyOrBlank(names[i]) != "")
    ensures |rows0| == 0 ==> added + (if v then 1 else 0) == 0 && AllBlank(names[..i + 1])
  {
    if |rows0| == 0 {
      AllBlankSnoc(names, i);
    }
  }

  /** The loop of syncAllClientsToTimeEntry(): each name in turn through ensureClientInTimeEntry_
      (false-ish ones skipped), the first failed insert ending the loop. */
  method SyncEach(te: Sheet, names: seq<Value>) returns (r: Result<nat>)
    requires te.Valid()
    modifies te
    ensures te.Valid()
    ensures r.Ok? ==> Tab(te.rows, r.value, te.maxRows, te.hidden) ==
                      SyncedTab(old(te.rows), old(te.maxRows), old(te.hidden), names)
    ensures r.Ok? ==> |old(te.rows)| > 0 || AllBlank(names)
    ensures r.Err? ==> r.error == RowOutOfBounds && |old(te.rows)| == 0 && !AllBlank(names)
    ensures r.Err? ==> te.rows == old(te.rows) && te.maxRows == old(te.maxRows) && te.hidden == old(te.hidden)
  {
    ghost var rows0, maxRows0, hidden0 := te.rows, te.maxRows, te.hidden;
    var added := 0;
    var i := 0;
    SyncedTabStart(rows0, maxRows0, hidden0);
    while i < |names|
      invariant i <= |names| && te.Valid()
      invariant |te.rows| == |rows0| + added
      invariant Tab(te.rows, added, te.maxRows, te.hidden) == SyncedTab(rows0, maxRows0, hidden0, names[..i])
      invariant |rows0| == 0 ==> added == 0 && AllBlank(names[..i])
    {
      ghost var rows, maxRows, hidden := te.rows, te.maxRows, te.hidden;
      var res := SyncName(te, names[i]);
      if res.Err? {
        assert KeyOrBlank(names[i]) != "" && |rows0| == 0;
        assert !AllBlank(names);
        return Err(RowOutOfBounds);
      }
      SyncedTabStep(rows0, maxRows0, hidden0, names, i, added, rows, maxRows, hidden,
                    res.value, te.rows, te.maxRows, te.hidden);
      StepBlank(rows0, names, i, added, res.value);
      if res.value {
        added := added + 1;
      }
      i := i + 1;
    }
    assert names[..i] == names;
    r := Ok(added);
  }

  /** syncAllClientsToTimeEntry(): the tracker's column B names, rows 2..lastRow, each passed
      to ensureClientInTimeEntry_ in order; returns the number added. When the Time Entry tab
      has no row at all, the first name with a non-blank key makes the insert fail, and the
      error ends the sync before anything was written. */
  method SyncAllClientsToTimeEntry(tracker: Sheet, te: Sheet) returns (r: Result<nat>)
    requires tracker != te
    requires tracker.Valid() && te.Valid()
    modifies te
    ensures te.Valid()
    ensures r == Err(EmptyRange) <==> |tracker.rows| < 2
    ensures r == Err(RowOutOfBounds) <==>
              |tracker.rows| >= 2 && |old(te.rows)| == 0 && !AllBlank(ColumnValues(tracker.rows, 2))
    ensures r.Ok? || r == Err(EmptyRange) || r == Err(RowOutOfBounds)
    ensures r.Ok? ==> Tab(te.rows, r.value, te.maxRows, te.hidden) ==
                      SyncedTab(old(te.rows), old(te.maxRows), old(te.hidden), ColumnValues(tracker.rows, 2))
    ensures r.Err? ==> te.rows == old(te.rows) && te.maxRows == old(te.maxRows) && te.hidden == old(te.hidden)
  {
    if tracker.LastRow() < 2 {
      return Err(EmptyRange);
    }
    r := SyncEach(te, ColumnValues(tracker.rows, 2));
  }
}
