/** The end-of-month rollover: monthlyRolloverAndCreateDocs (Code.js:9-113), which replaces each
    client's summary document, and monthlyRolloverAndCreateDocsSafe (Code.js:131-234), which
    rewrites the live one in place. Both walk the data rows of "Master Tracker" once, skip rows
    without a client name, hosting clients and inactive or transitioning clients, write one
    document per remaining client into the client's folder, link the document and the folder
    from columns S and R, and log the client on "Document Summary". */
module Rollover {
  import opened Text
  import opened Cells
  import opened Sheets
  import opened DriveFiles
  import Visibility

  /** Replace: trash every document of the month and create a new one (Code.js:9).
      Reuse: rewrite the first live document of the month, creating one only when there is
      none (Code.js:131). */
  datatype Mode = Replace | Reuse

  /** What the run takes from outside the spreadsheet: the label of the previous month and the
      run's timestamp (both formatted from the clock), the date format used for the domain
      expiry, and the URLs Drive gives documents and folders. */
  datatype Env = Env(
    monthLabel: string,
    timestamp: string,
    formatDate: DateTime -> string,
    docUrl: nat -> string,
    folderUrl: nat -> string)

  // Columns of "Master Tracker" the rollover reads (B, C, H, I, J, K, M, O, P, Q) and writes (R, S).
  const NameCol: nat := 2
  const PlanCol: nat := 3
  const BlockUsedCol: nat := 8
  const RemainingCol: nat := 9
  const OverageCol: nat := 10
  const EmailCol: nat := 11
  const FirstNameCol: nat := 13
  const StatusCol: nat := 15
  const DomainExpiryCol: nat := 16
  const AnalyticsCol: nat := 17
  const FolderLinkCol: nat := 18
  const DocLinkCol: nat := 19

  /** `typeof clientName === "string" ? clientName.trim() : ""` */
  function TrimmedName(v: Value): string
  {
    if v.Str? then Trim(v.s) else ""
  }

  /** The client name as it is used for the folder and the document: untrimmed. */
  function ClientName(row: Row): string
  {
    match ValueAt(row, NameCol)
    case Str(s) => s
    case _ => ""
  }

  /** A plan of "Hosting", in any case and with any surrounding white space. */
  predicate Hosting(plan: Value)
  {
    Truthy(plan) && KeyOf(plan) == "hosting"
  }

  /** A status of "Inactive" or "Transitioning", in any case and with any surrounding white space. */
  predicate Retired(status: Value)
  {
    Truthy(status) && (KeyOf(status) == "inactive" || KeyOf(status) == "transitioning")
  }

  /** The rows that get a document: a non-blank name, not on the hosting plan, not retired. */
  predicate Qualifies(row: Row)
  {
    TrimmedName(ValueAt(row, NameCol)) != "" && !Hosting(ValueAt(row, PlanCol)) && !Retired(ValueAt(row, StatusCol))
  }

  /** The rollover skips exactly the statuses that hideInactiveAndTransitioningRows hides. */
  lemma RetiredIsParked(status: Value)
    ensures Retired(status) <==> Visibility.Parked(status)
  {
    if Truthy(status) {
      TrimLowerCommute(Show(status));
    } else {
      assert Lower("") == "";
      TrimStartNoop("");
      TrimEndNoop("");
    }
  }

  /** `${monthLabel} - ${clientName}` */
  function DocName(env: Env, name: string): string
  {
    env.monthLabel + " - " + name
  }

  /** Different clients get documents of different names in the same month. */
  lemma DocNameInjective(env: Env, a: string, b: string)
    requires DocName(env, a) == DocName(env, b)
    ensures a == b
  {
    var p := env.monthLabel + " - ";
    assert a == DocName(env, a)[|p|..];
    assert b == DocName(env, b)[|p|..];
  }

  /** The paragraphs of the summary document, in the order they are appended. */
  datatype Line =
    | Greeting | Spacer | Summary | BlockHours | RemainingBlock | Overage
    | SupportHours | MonthlyPlan | DomainExpiry | Analytics | Questions

  /** The paragraph lines of each pass: the reuse pass leaves out the blank spacer lines and
      the heading of the monthly-plan part. */
  function Lines(mode: Mode): seq<Line>
  {
    match mode
    case Replace =>
      [Greeting, Spacer, Summary, BlockHours, RemainingBlock, Overage, Spacer, SupportHours,
       Spacer, MonthlyPlan, DomainExpiry, Analytics, Questions]
    case Reuse =>
      [Greeting, Summary, BlockHours, RemainingBlock, Overage, SupportHours, DomainExpiry,
       Analytics, Questions]
  }

  /** Both passes report the same figures: the lines they share are every line of the reuse
      document and every line of the replace document except the spacers and the heading. */
  lemma SameFigures()
    ensures forall l | l in Lines(Reuse) :: l in Lines(Replace)
    ensures forall l | l in Lines(Replace) && l != Spacer && l != MonthlyPlan :: l in Lines(Reuse)
  {
  }

  /** The domain expiry as printed: a date in the report's format, otherwise the cell's value
      or "N/A". */
  function ExpiryText(env: Env, v: Value): string
  {
    if v.Date? then env.formatDate(v.d) else Show(Or(v, Str("N/A")))
  }

  function LineText(env: Env, row: Row, l: Line): string
  {
    match l
    case Greeting => "Hello " + Show(Or(ValueAt(row, FirstNameCol), Str(""))) + ",\n"
    case Spacer => ""
    case Summary =>
      "Here\U{2019}s your monthly support summary for " + Show(ValueAt(row, NameCol)) + " \U{2013} " + env.monthLabel + ":\n"
    case BlockHours => "Block Hours Applied: " + Show(Or(ValueAt(row, BlockUsedCol), Number(0)))
    case RemainingBlock => "Remaining Block Balance: " + Show(Or(ValueAt(row, RemainingCol), Number(0)))
    case Overage => "Overage Hours (Uncovered): " + Show(Or(ValueAt(row, OverageCol), Number(0)))
    case SupportHours => "\nIf you need additional support hours, visit https://radiateu.com/request-support-time."
    case MonthlyPlan => "\nFor our clients on a monthly plan:"
    case DomainExpiry => "\U{1F510} Domain Expiration: " + ExpiryText(env, ValueAt(row, DomainExpiryCol))
    case Analytics => "\U{1F4CA} Access to Google Analytics: " + Show(Or(ValueAt(row, AnalyticsCol), Str("N/A")))
    case Questions => "\nIf you have any questions, feel free to reply here or send a message to support@radiateu.com."
  }

  /** The logo is scaled to 150 points wide by the replace pass and to 200 by the reuse pass. */
  function LogoWidth(mode: Mode): nat
  {
    match mode
    case Replace => 150
    case Reuse => 200
  }

  /** The document body: the logo, then one paragraph per line. */
  function Content(mode: Mode, env: Env, row: Row): (body: seq<Block>)
    ensures |body| == |Lines(mode)| + 1
    ensures body[0] == Logo(LogoWidth(mode))
    ensures forall i | 0 <= i < |Lines(mode)| :: body[i + 1] == Paragraph(LineText(env, row, Lines(mode)[i]))
  {
    [Logo(LogoWidth(mode))] + seq(|Lines(mode)|, i requires 0 <= i < |Lines(mode)| => Paragraph(LineText(env, row, Lines(mode)[i])))
  }

  /** The layout of the replace document: the 150-point logo and 13 paragraphs, opening with
      the greeting and the blank spacer, the summary line third, spacers again before the
      support line and before the monthly-plan heading, and the contact line last. */
  lemma ReplaceLayout(env: Env, row: Row)
    ensures var d := Content(Replace, env, row);
            |d| == 14 && d[0] == Logo(150) &&
            d[1] == Paragraph(LineText(env, row, Greeting)) &&
            d[2] == d[7] == d[9] == Paragraph("") &&
            d[3] == Paragraph(LineText(env, row, Summary)) &&
            d[8] == Paragraph(LineText(env, row, SupportHours)) &&
            d[10] == Paragraph(LineText(env, row, MonthlyPlan)) &&
            d[13] == Paragraph(LineText(env, row, Questions))
  {
    var ls := Lines(Replace);
    assert ls[0] == Greeting && ls[1] == ls[6] == ls[8] == Spacer && ls[2] == Summary;
    assert ls[7] == SupportHours && ls[9] == MonthlyPlan && ls[12] == Questions;
  }

  /** The layout of the reuse document: the 200-point logo and 9 paragraphs, the greeting first,
      the summary line second and the contact line last. */
  lemma ReuseLayout(env: Env, row: Row)
    ensures var d := Content(Reuse, env, row);
            |d| == 10 && d[0] == Logo(200) &&
            d[1] == Paragraph(LineText(env, row, Greeting)) &&
            d[2] == Paragraph(LineText(env, row, Summary)) &&
            d[9] == Paragraph(LineText(env, row, Questions))
  {
    var ls := Lines(Reuse);
    assert ls[0] == Greeting && ls[1] == Summary && ls[8] == Questions;
  }

  /** A text built around two inserted strings mentions both. */
  lemma MentionsBoth(a: string, x: string, b: string, y: string, c: string)
    ensures Mentions(a + x + b + y + c, x) && Mentions(a + x + b + y + c, y)
  {
    MentionsSplice(a, x, b + y + c);
    assert a + x + b + y + c == a + x + (b + y + c);
    MentionsSplice(a + x + b, y, c);
  }

  /** Every document carries the summary line. */
  lemma SummaryInContent(mode: Mode, env: Env, row: Row)
    ensures Paragraph(LineText(env, row, Summary)) in Content(mode, env, row)
  {
    var k := if mode == Replace then 2 else 1;
    assert Lines(mode)[k] == Summary;
    assert Content(mode, env, row)[k + 1] == Paragraph(LineText(env, row, Summary));
  }

  /** The summary line names the client and the month it reports on. */
  lemma SummaryNamesClient(env: Env, row: Row)
    ensures Mentions(LineText(env, row, Summary), Show(ValueAt(row, NameCol)))
    ensures Mentions(LineText(env, row, Summary), env.monthLabel)
  {
    MentionsBoth("Here\U{2019}s your monthly support summary for ", Show(ValueAt(row, NameCol)), " \U{2013} ", env.monthLabel, ":\n");
  }

  /** `=HYPERLINK("url", "label")`, written with setFormula. */
  function LinkCell(url: string, caption: string): Cell
  {
    Formula("=HYPERLINK(\"" + url + "\", \"" + caption + "\")", Empty)
  }

  /** The two links of a processed row: S opens the document, R the client's folder. */
  function Links(rows: seq<Row>, r: nat, docUrl: string, folderUrl: string): (rs: seq<Row>)
    requires r >= 1
    ensures |rs| == Max(|rows|, r)
  {
    PutCell(PutCell(rows, r, DocLinkCol, LinkCell(docUrl, "Open Doc")), r, FolderLinkCol, LinkCell(folderUrl, "Open Folder"))
  }

  /** Links changes row r in columns R and S and nothing else. */
  lemma LinksAt(rows: seq<Row>, j: nat, docUrl: string, folderUrl: string)
    requires j < |rows|
    ensures var rs := Links(rows, j + 1, docUrl, folderUrl);
            |rs| == |rows| &&
            (forall k | 0 <= k < |rows| && k != j :: rs[k] == rows[k]) &&
            rs[j] == WithCell(WithCell(rows[j], DocLinkCol, LinkCell(docUrl, "Open Doc")), FolderLinkCol, LinkCell(folderUrl, "Open Folder"))
  {
  }

  /** The header the summary sheet gets after it is cleared. */
  const SummaryHeader: Row := [Plain(Str("Client Name")), Plain(Str("Email")), Plain(Str("Doc URL")), Plain(Str("Timestamp"))]

  /** `[clientName, clientEmail || "N/A"]`: the part of a summary row that comes from the tracker. */
  function LogHead(row: Row): Row
  {
    [Plain(ValueAt(row, NameCol)), Plain(Or(ValueAt(row, EmailCol), Str("N/A")))]
  }

  /** The row appended to "Document Summary" for a processed client. */
  function LogRow(env: Env, row: Row, docUrl: string): Row
  {
    LogHead(row) + [Plain(Str(docUrl)), Plain(Str(env.timestamp))]
  }

  /** The writing of one document into the client's folder. */
  function PlaceDoc(mode: Mode, files: seq<DocFile>, nextId: nat, name: string, body: seq<Block>): Placed
  {
    match mode
    case Replace => ReplaceDoc(files, nextId, name, body)
    case Reuse => ReuseDoc(files, nextId, name, body)
  }

  /** Drive after one client's document was written, the document's id and the folder's id. */
  datatype Written = Written(drive: DriveState, docId: nat, folderId: nat)

  function WriteDoc(mode: Mode, env: Env, ds: DriveState, name: string, body: seq<Block>): Written
  {
    var (ds1, fi) := GetOrCreate(ds, name);
    var folder := ds1.folders[fi];
    var p := PlaceDoc(mode, folder.files, ds1.nextId, DocName(env, name), body);
    Written(DriveState(ds1.folders[fi := folder.(files := p.files)], p.nextId), p.id, folder.id)
  }

  /** Drive, the tracker's rows, the summary sheet's rows and `createdCount` during a pass. */
  datatype RunState = RunState(drive: DriveState, tracker: seq<Row>, log: seq<Row>, count: nat)

  /** A data row the callback does not skip, and the sheet row it sits on. */
  datatype Job = Job(row: Row, rowNum: nat)

  /** For each data row, whether the callback goes past its three checks. */
  function Keeps(data: seq<Row>): (keep: seq<bool>)
    ensures |keep| == |data|
    ensures forall i | 0 <= i < |data| :: keep[i] == Qualifies(data[i])
  {
    seq(|data|, i requires 0 <= i < |data| => Qualifies(data[i]))
  }

  /** The data rows whose flag is set, each with its sheet row: data row i sits on row i + 2. */
  function Picked(data: seq<Row>, keep: seq<bool>): seq<Job>
    requires |keep| == |data|
  {
    if data == [] then []
    else
      var n := |data|;
      Picked(data[..n - 1], keep[..n - 1]) + if keep[n - 1] then [Job(data[n - 1], n + 1)] else []
  }

  /** The rows the callback does not skip, in order. */
  function Jobs(data: seq<Row>): seq<Job>
  {
    Picked(data, Keeps(data))
  }

  /** The callback after its three checks: the document, the link to it in S, the link to the
      folder in R, the summary row and the count. */
  function Record(mode: Mode, env: Env, st: RunState, job: Job): RunState
    requires job.rowNum >= 1
  {
    var w := WriteDoc(mode, env, st.drive, ClientName(job.row), Content(mode, env, job.row));
    var docUrl := env.docUrl(w.docId);
    RunState(w.drive, Links(st.tracker, job.rowNum, docUrl, env.folderUrl(w.folderId)),
             st.log + [LogRow(env, job.row, docUrl)], st.count + 1)
  }

  /** Every job has a sheet row. */
  predicate OnSheet(jobs: seq<Job>)
  {
    forall k | 0 <= k < |jobs| :: jobs[k].rowNum >= 1
  }

  /** The callback on each job in turn. */
  function RecordAll(mode: Mode, env: Env, st: RunState, jobs: seq<Job>): RunState
    requires OnSheet(jobs)
  {
    if jobs == [] then st
    else
      var n := |jobs|;
      Record(mode, env, RecordAll(mode, env, st, jobs[..n - 1]), jobs[n - 1])
  }

  /** A whole pass: the summary sheet starts from its header, the rows are read once up front,
      and the callback runs on each row that passes the checks. */
  function Rollover(mode: Mode, env: Env, ds: DriveState, rows: seq<Row>): RunState
  {
    JobsExact(Body(rows));
    RecordAll(mode, env, RunState(ds, rows, [SummaryHeader], 0), Jobs(Body(rows)))
  }

  // ---------------------------------------------------------------------------------------
  // Which rows get a document

  lemma {:induction false} PickedSound(data: seq<Row>, keep: seq<bool>)
    requires |keep| == |data|
    ensures forall job | job in Picked(data, keep) ::
              2 <= job.rowNum <= |data| + 1 && job.row == data[job.rowNum - 2] && keep[job.rowNum - 2]
  {
    if data != [] {
      var n := |data|;
      var init, flags := data[..n - 1], keep[..n - 1];
      PickedSound(init, flags);
      forall job | job in Picked(init, flags)
        ensures job.row == data[job.rowNum - 2] && keep[job.rowNum - 2]
      {
        assert init[job.rowNum - 2] == data[job.rowNum - 2];
        assert flags[job.rowNum - 2] == keep[job.rowNum - 2];
      }
    }
  }

  lemma {:induction false} PickedComplete(data: seq<Row>, keep: seq<bool>)
    requires |keep| == |data|
    ensures forall i | 0 <= i < |data| && keep[i] :: Job(data[i], i + 2) in Picked(data, keep)
  {
    if data != [] {
      var n := |data|;
      var init, flags := data[..n - 1], keep[..n - 1];
      PickedComplete(init, flags);
      forall i | 0 <= i < n - 1 && keep[i]
        ensures Job(data[i], i + 2) in Picked(data, keep)
      {
        assert data[i] == init[i] && keep[i] == flags[i];
        assert Job(init[i], i + 2) in Picked(init, flags);
      }
    }
  }

  /** The jobs are exactly the flagged data rows, each on its own sheet row. */
  lemma PickedExact(data: seq<Row>, keep: seq<bool>)
    requires |keep| == |data|
    ensures forall job :: job in Picked(data, keep) <==>
              2 <= job.rowNum <= |data| + 1 && job.row == data[job.rowNum - 2] && keep[job.rowNum - 2]
    ensures OnSheet(Picked(data, keep))
  {
    PickedSound(data, keep);
    PickedComplete(data, keep);
    forall job: Job | 2 <= job.rowNum <= |data| + 1 && job.row == data[job.rowNum - 2] && keep[job.rowNum - 2]
      ensures job in Picked(data, keep)
    {
      var i := job.rowNum - 2;
      assert Job(data[i], i + 2) == job;
    }
    var js := Picked(data, keep);
    forall k | 0 <= k < |js|
      ensures js[k].rowNum >= 1
    {
      assert js[k] in js;
    }
  }

  /** A row gets a document exactly when it passes the three checks, and it is linked on the
      sheet row it was read from. */
  lemma JobsExact(data: seq<Row>)
    ensures forall job :: job in Jobs(data) <==>
              2 <= job.rowNum <= |data| + 1 && job.row == data[job.rowNum - 2] && Qualifies(job.row)
    ensures OnSheet(Jobs(data))
  {
    PickedExact(data, Keeps(data));
  }

  /** Each job's sheet row lies below the one before it. */
  predicate Ascending(jobs: seq<Job>)
  {
    forall a, b | 0 <= a < b < |jobs| :: jobs[a].rowNum < jobs[b].rowNum
  }

  lemma {:induction false} PickedOrdered(data: seq<Row>, keep: seq<bool>)
    requires |keep| == |data|
    ensures Ascending(Picked(data, keep))
  {
    if data != [] {
      var n := |data|;
      var init, flags := data[..n - 1], keep[..n - 1];
      PickedOrdered(init, flags);
      PickedSound(init, flags);
      var prev := Picked(init, flags);
      var js := Picked(data, keep);
      forall a, b | 0 <= a < b < |js|
        ensures js[a].rowNum < js[b].rowNum
      {
        assert js[a] == prev[a] && js[a] in prev;
        if b < |prev| {
          assert js[b] == prev[b];
          assert prev[a].rowNum < prev[b].rowNum;
        } else {
          assert js[b] == Job(data[n - 1], n + 1);
          assert js[a].rowNum <= n;
        }
      }
    }
  }

  /** The jobs keep the order of the tracker: each sheet row at most once, top down. */
  lemma JobsOrdered(data: seq<Row>)
    ensures Ascending(Jobs(data))
  {
    PickedOrdered(data, Keeps(data));
  }

  /** Reading one more row adds a job exactly when its flag is set. */
  lemma PickedSnoc(data: seq<Row>, keep: seq<bool>, i: nat)
    requires |keep| == |data| && i < |data|
    ensures Picked(data[..i + 1], keep[..i + 1]) ==
            Picked(data[..i], keep[..i]) + if keep[i] then [Job(data[i], i + 2)] else []
  {
    assert data[..i + 1][..i] == data[..i];
    assert keep[..i + 1][..i] == keep[..i];
  }

  lemma RecordAllSnoc(mode: Mode, env: Env, st: RunState, jobs: seq<Job>, job: Job)
    requires OnSheet(jobs) && job.rowNum >= 1
    ensures OnSheet(jobs + [job])
    ensures RecordAll(mode, env, st, jobs + [job]) == Record(mode, env, RecordAll(mode, env, st, jobs), job)
  {
    assert (jobs + [job])[..|jobs|] == jobs;
  }

  // ---------------------------------------------------------------------------------------
  // What a pass logs and counts

  /** `createdCount` is the number of jobs. */
  lemma {:induction false} RecordAllCount(mode: Mode, env: Env, st: RunState, jobs: seq<Job>)
    requires OnSheet(jobs)
    ensures RecordAll(mode, env, st, jobs).count == st.count + |jobs|
  {
    if jobs != [] {
      RecordAllCount(mode, env, st, jobs[..|jobs| - 1]);
    }
  }

  /** The first two cells of each summary row. */
  function Heads(log: seq<Row>): (hs: seq<Row>)
    ensures |hs| == |log|
  {
    seq(|log|, k requires 0 <= k < |log| => if |log[k]| < 2 then log[k] else log[k][..2])
  }

  /** The summary heads the jobs give, in order. */
  function JobHeads(jobs: seq<Job>): (hs: seq<Row>)
    ensures |hs| == |jobs|
  {
    seq(|jobs|, k requires 0 <= k < |jobs| => LogHead(jobs[k].row))
  }

  lemma HeadsAppend(log: seq<Row>, r: Row)
    ensures Heads(log + [r]) == Heads(log) + [if |r| < 2 then r else r[..2]]
  {
    assert forall k | 0 <= k < |log| :: (log + [r])[k] == log[k];
  }

  lemma JobHeadsSnoc(jobs: seq<Job>)
    requires jobs != []
    ensures JobHeads(jobs) == JobHeads(jobs[..|jobs| - 1]) + [LogHead(jobs[|jobs| - 1].row)]
  {
  }

  lemma AppendAssoc(a: seq<Row>, b: seq<Row>, c: seq<Row>)
    ensures a + b + c == a + (b + c)
  {
  }

  /** A prefix of a prefix is a prefix. */
  lemma PrefixTrans(a: seq<Row>, b: seq<Row>, c: seq<Row>)
    requires |a| <= |b| <= |c| && b[..|a|] == a && c[..|b|] == b
    ensures c[..|a|] == a
  {
    assert c[..|a|] == c[..|b|][..|a|];
  }

  /** One job appends its summary row: name and email from the client's row. */
  lemma RecordLog(mode: Mode, env: Env, st: RunState, job: Job)
    requires job.rowNum >= 1
    ensures var log := Record(mode, env, st, job).log;
            |log| == |st.log| + 1 && log[..|st.log|] == st.log &&
            Heads(log) == Heads(st.log) + [LogHead(job.row)]
  {
    var e := LogRow(env, job.row, env.docUrl(WriteDoc(mode, env, st.drive, ClientName(job.row), Content(mode, env, job.row)).docId));
    HeadsAppend(st.log, e);
    assert e[..2] == LogHead(job.row);
  }

  /** `log` is `start` followed by rows whose first two cells are `heads`. */
  predicate Extends(log: seq<Row>, start: seq<Row>, heads: seq<Row>)
  {
    |log| == |start| + |heads| && log[..|start|] == start && Heads(log) == Heads(start) + heads
  }

  lemma ExtendsStep(l0: seq<Row>, l1: seq<Row>, l2: seq<Row>, heads: seq<Row>, h: Row)
    requires Extends(l1, l0, heads)
    requires |l2| == |l1| + 1 && l2[..|l1|] == l1 && Heads(l2) == Heads(l1) + [h]
    ensures Extends(l2, l0, heads + [h])
  {
    AppendAssoc(Heads(l0), heads, [h]);
    PrefixTrans(l0, l1, l2);
  }

  /** The pass keeps what the log held and appends one summary row per job, in order, its name
      and email taken from the job's row. */
  lemma {:induction false} RecordAllLog(mode: Mode, env: Env, st: RunState, jobs: seq<Job>)
    requires OnSheet(jobs)
    ensures Extends(RecordAll(mode, env, st, jobs).log, st.log, JobHeads(jobs))
  {
    if jobs != [] {
      var n := |jobs|;
      var init := jobs[..n - 1];
      var job := jobs[n - 1];
      var prev := RecordAll(mode, env, st, init);
      RecordAllLog(mode, env, st, init);
      RecordLog(mode, env, prev, job);
      JobHeadsSnoc(jobs);
      ExtendsStep(st.log, prev.log, Record(mode, env, prev, job).log, JobHeads(init), LogHead(job.row));
    }
  }

  // ---------------------------------------------------------------------------------------
  // What a pass writes to the tracker

  /** A tracker row whose S cell links a document, whose R cell links a folder, and whose other
      cells are those of `before`. */
  ghost predicate LinkedFrom(after: Row, before: Row)
  {
    (exists url :: CellAt(after, DocLinkCol) == LinkCell(url, "Open Doc")) &&
    (exists url :: CellAt(after, FolderLinkCol) == LinkCell(url, "Open Folder")) &&
    forall col | col >= 1 && col != DocLinkCol && col != FolderLinkCol :: CellAt(after, col) == CellAt(before, col)
  }

  /** Linking a row twice still leaves it linked, its other cells untouched. */
  lemma LinkedTwice(a: Row, b: Row, c: Row)
    requires LinkedFrom(b, a) && (b == c || LinkedFrom(c, b))
    ensures LinkedFrom(c, a)
  {
  }

  /** One job writes the two links on its row and nothing else. */
  lemma RecordTracker(mode: Mode, env: Env, st: RunState, job: Job)
    requires 1 <= job.rowNum <= |st.tracker|
    ensures var t := Record(mode, env, st, job).tracker;
            var j := job.rowNum - 1;
            |t| == |st.tracker| &&
            (forall k | 0 <= k < |t| && k != j :: t[k] == st.tracker[k]) &&
            LinkedFrom(t[j], st.tracker[j])
  {
    var w := WriteDoc(mode, env, st.drive, ClientName(job.row), Content(mode, env, job.row));
    var docUrl, folderUrl := env.docUrl(w.docId), env.folderUrl(w.folderId);
    var j := job.rowNum - 1;
    LinksAt(st.tracker, j, docUrl, folderUrl);
    var after := WithCell(WithCell(st.tracker[j], DocLinkCol, LinkCell(docUrl, "Open Doc")), FolderLinkCol, LinkCell(folderUrl, "Open Folder"));
    assert CellAt(after, DocLinkCol) == LinkCell(docUrl, "Open Doc");
    assert CellAt(after, FolderLinkCol) == LinkCell(folderUrl, "Open Folder");
  }

  /** The sheet rows of the jobs. */
  function JobRows(jobs: seq<Job>): set<nat>
  {
    if jobs == [] then {} else JobRows(jobs[..|jobs| - 1]) + {jobs[|jobs| - 1].rowNum}
  }

  /** Every job's row is on the tracker. */
  predicate Within(jobs: seq<Job>, height: nat)
  {
    forall k | 0 <= k < |jobs| :: 1 <= jobs[k].rowNum <= height
  }

  lemma WithinInit(jobs: seq<Job>, height: nat)
    requires jobs != [] && Within(jobs, height)
    ensures Within(jobs[..|jobs| - 1], height) && 1 <= jobs[|jobs| - 1].rowNum <= height
  {
    var init := jobs[..|jobs| - 1];
    forall k | 0 <= k < |init|
      ensures 1 <= init[k].rowNum <= height
    {
      assert init[k] == jobs[k];
    }
  }

  /** `after` has the height of `before`; the sheet rows in `linked` got their links and
      every other row is as it was. */
  ghost predicate LinkedOn(after: seq<Row>, before: seq<Row>, linked: set<nat>)
  {
    |after| == |before| &&
    (forall j | 0 <= j < |after| && j + 1 !in linked :: after[j] == before[j]) &&
    forall r | r in linked :: 1 <= r <= |after| && LinkedFrom(after[r - 1], before[r - 1])
  }

  /** Linking one more row, in place, extends the set of linked rows by it. */
  lemma LinkedOnStep(s0: seq<Row>, s1: seq<Row>, s2: seq<Row>, linked: set<nat>, row: nat)
    requires LinkedOn(s1, s0, linked)
    requires 1 <= row <= |s1| == |s2| && LinkedFrom(s2[row - 1], s1[row - 1])
    requires forall k | 0 <= k < |s2| && k != row - 1 :: s2[k] == s1[k]
    ensures LinkedOn(s2, s0, linked + {row})
  {
    var grown := linked + {row};
    forall r | r in grown
      ensures 1 <= r <= |s2| && LinkedFrom(s2[r - 1], s0[r - 1])
    {
      if r == row {
        if r in linked {
          LinkedTwice(s0[r - 1], s1[r - 1], s2[r - 1]);
        } else {
          assert s1[r - 1] == s0[r - 1];
        }
      } else {
        assert s2[r - 1] == s1[r - 1];
      }
    }
  }

  /** One more job links its row on top of the rows linked so far. */
  lemma RecordTrackerStep(mode: Mode, env: Env, st: RunState, prev: RunState, linked: set<nat>, job: Job)
    requires LinkedOn(prev.tracker, st.tracker, linked) && 1 <= job.rowNum <= |st.tracker|
    ensures LinkedOn(Record(mode, env, prev, job).tracker, st.tracker, linked + {job.rowNum})
  {
    RecordTracker(mode, env, prev, job);
    LinkedOnStep(st.tracker, prev.tracker, Record(mode, env, prev, job).tracker, linked, job.rowNum);
  }

  /** The pass changes only the rows of its jobs, and there only R and S, which get links. */
  lemma {:induction false} RecordAllTracker(mode: Mode, env: Env, st: RunState, jobs: seq<Job>)
    requires Within(jobs, |st.tracker|)
    ensures OnSheet(jobs)
    ensures LinkedOn(RecordAll(mode, env, st, jobs).tracker, st.tracker, JobRows(jobs))
  {
    if jobs != [] {
      var n := |jobs|;
      var init := jobs[..n - 1];
      var job := jobs[n - 1];
      WithinInit(jobs, |st.tracker|);
      RecordAllTracker(mode, env, st, init);
      RecordTrackerStep(mode, env, st, RecordAll(mode, env, st, init), JobRows(init), job);
    }
  }

  // ---------------------------------------------------------------------------------------
  // What a pass leaves in Drive

  /** The first folder named after the client holds at most one live document of the month. */
  predicate Bounded(ds: DriveState, env: Env, name: string)
  {
    match FindFolder(ds.folders, name)
    case None => true
    case Some(fi) => LiveCount(ds.folders[fi].files, DocName(env, name)) <= 1
  }

  /** The client's folder exists and holds exactly one live document of the month. */
  predicate HasDoc(ds: DriveState, env: Env, name: string)
  {
    match FindFolder(ds.folders, name)
    case None => false
    case Some(fi) => LiveCount(ds.folders[fi].files, DocName(env, name)) == 1
  }

  /** The client's folder exists and holds at least one live document of the month. */
  predicate HasSome(ds: DriveState, env: Env, name: string)
  {
    match FindFolder(ds.folders, name)
    case None => false
    case Some(fi) => LiveCount(ds.folders[fi].files, DocName(env, name)) >= 1
  }

  /** No client folder holds two live documents of the month. */
  ghost predicate Tidy(ds: DriveState, env: Env)
  {
    forall name :: Bounded(ds, env, name)
  }

  /** Adding a folder of another name does not change which folder a name finds. */
  lemma {:induction false} FindFolderAppend(folders: seq<Folder>, f: Folder, name: string, start: nat)
    requires start <= |folders| && f.name != name
    ensures FindFolderFrom(folders + [f], name, start) == FindFolderFrom(folders, name, start)
    decreases |folders| - start
  {
    if start < |folders| {
      assert (folders + [f])[start] == folders[start];
      FindFolderAppend(folders, f, name, start + 1);
    }
  }

  /** Replacing the files of a folder does not change which folder a name finds. */
  lemma {:induction false} FindFolderSameNames(folders: seq<Folder>, i: nat, files: seq<DocFile>, name: string, start: nat)
    requires i < |folders| && start <= |folders|
    ensures FindFolderFrom(folders[i := folders[i].(files := files)], name, start) == FindFolderFrom(folders, name, start)
    decreases |folders| - start
  {
    if start < |folders| {
      FindFolderSameNames(folders, i, files, name, start + 1);
    }
  }

  /** Writing the document of `name`: afterwards the client has exactly one live document of the
      month when the replace pass ran or at most one was there before. */
  lemma WriteDocHasDoc(mode: Mode, env: Env, ds: DriveState, name: string, body: seq<Block>)
    requires mode == Replace || Bounded(ds, env, name)
    ensures HasDoc(WriteDoc(mode, env, ds, name, body).drive, env, name)
  {
    GetOrCreateFolder(ds, name);
    var (ds1, fi) := GetOrCreate(ds, name);
    var folder := ds1.folders[fi];
    var docName := DocName(env, name);
    var p := PlaceDoc(mode, folder.files, ds1.nextId, docName, body);
    FindFolderIs(ds1.folders, name, 0, fi);
    FindFolderSameNames(ds1.folders, fi, p.files, name, 0);
    if mode == Replace {
      ReplaceLeavesOneLive(folder.files, ds1.nextId, docName, body);
    } else {
      if FindFolder(ds.folders, name).None? {
        assert folder.files == [];
      }
      ReuseKeepsOneLive(folder.files, ds1.nextId, docName, body);
    }
  }

  /** Writing the document of `name` leaves what `other` finds in Drive as it was. */
  lemma WriteDocOther(mode: Mode, env: Env, ds: DriveState, name: string, body: seq<Block>, other: string)
    requires other != name
    ensures var ds' := WriteDoc(mode, env, ds, name, body).drive;
            FindFolder(ds'.folders, other) == FindFolder(ds.folders, other) &&
            (FindFolder(ds.folders, other).Some? ==>
               ds'.folders[FindFolder(ds.folders, other).value].files == ds.folders[FindFolder(ds.folders, other).value].files)
  {
    GetOrCreateFolder(ds, name);
    var (ds1, fi) := GetOrCreate(ds, name);
    var p := PlaceDoc(mode, ds1.folders[fi].files, ds1.nextId, DocName(env, name), body);
    FindFolderSameNames(ds1.folders, fi, p.files, other, 0);
    if FindFolder(ds.folders, name).None? {
      FindFolderAppend(ds.folders, Folder(ds.nextId, name, []), other, 0);
    }
  }

  /** Whatever Drive held, writing the document of `name` in either pass leaves its folder with
      at least one live document of the month. */
  lemma WriteDocHasSome(mode: Mode, env: Env, ds: DriveState, name: string, body: seq<Block>)
    ensures HasSome(WriteDoc(mode, env, ds, name, body).drive, env, name)
  {
    GetOrCreateFolder(ds, name);
    var (ds1, fi) := GetOrCreate(ds, name);
    var folder := ds1.folders[fi];
    var docName := DocName(env, name);
    var p := PlaceDoc(mode, folder.files, ds1.nextId, docName, body);
    FindFolderIs(ds1.folders, name, 0, fi);
    FindFolderSameNames(ds1.folders, fi, p.files, name, 0);
    if mode == Replace {
      ReplaceLeavesOneLive(folder.files, ds1.nextId, docName, body);
    } else {
      FirstLiveCount(folder.files, docName);
      match FirstLive(folder.files, docName)
      case Some(k) =>
        LiveCountSame(p.files, folder.files, docName);
      case None =>
        LiveCountAppend(folder.files, NewDoc(ds1.nextId, docName).(body := body), docName);
    }
  }

  /** Writing one client's document keeps every client within one live document of the month. */
  lemma WriteDocTidy(mode: Mode, env: Env, ds: DriveState, name: string, body: seq<Block>)
    requires Tidy(ds, env)
    ensures Tidy(WriteDoc(mode, env, ds, name, body).drive, env)
  {
    var ds' := WriteDoc(mode, env, ds, name, body).drive;
    forall other
      ensures Bounded(ds', env, other)
    {
      if other == name {
        WriteDocHasDoc(mode, env, ds, name, body);
      } else {
        assert Bounded(ds, env, other);
        WriteDocOther(mode, env, ds, name, body, other);
      }
    }
  }

  /** The client names of the jobs. */
  function JobNames(jobs: seq<Job>): set<string>
  {
    if jobs == [] then {} else JobNames(jobs[..|jobs| - 1]) + {ClientName(jobs[|jobs| - 1].row)}
  }

  /** One job leaves its client with exactly one live document of the month when the replace
      pass runs or the client had at most one; other clients keep what they had. */
  lemma RecordHasDoc(mode: Mode, env: Env, st: RunState, job: Job, name: string)
    requires job.rowNum >= 1
    requires HasDoc(st.drive, env, name) ||
             (ClientName(job.row) == name && (mode == Replace || Bounded(st.drive, env, name)))
    ensures HasDoc(Record(mode, env, st, job).drive, env, name)
  {
    var body := Content(mode, env, job.row);
    if ClientName(job.row) == name {
      WriteDocHasDoc(mode, env, st.drive, name, body);
    } else {
      WriteDocOther(mode, env, st.drive, ClientName(job.row), body, name);
    }
  }

  /** After a replace pass, or a reuse pass over a tidy Drive, every client of a job has
      exactly one live document of the month in its folder; a tidy Drive stays tidy. */
  lemma {:induction false} RecordAllDocs(mode: Mode, env: Env, st: RunState, jobs: seq<Job>)
    requires OnSheet(jobs)
    requires mode == Replace || Tidy(st.drive, env)
    ensures var ds := RecordAll(mode, env, st, jobs).drive;
            (Tidy(st.drive, env) ==> Tidy(ds, env)) &&
            forall name | name in JobNames(jobs) :: HasDoc(ds, env, name)
  {
    if jobs != [] {
      var n := |jobs|;
      var init := jobs[..n - 1];
      var job := jobs[n - 1];
      var prev := RecordAll(mode, env, st, init);
      RecordAllDocs(mode, env, st, init);
      if Tidy(st.drive, env) {
        WriteDocTidy(mode, env, prev.drive, ClientName(job.row), Content(mode, env, job.row));
      }
      forall name | name in JobNames(jobs)
        ensures HasDoc(Record(mode, env, prev, job).drive, env, name)
      {
        assert JobNames(jobs) == JobNames(init) + {ClientName(job.row)};
        if name !in JobNames(init) && mode == Reuse {
          assert Bounded(prev.drive, env, name);
        }
        RecordHasDoc(mode, env, prev, job, name);
      }
    }
  }

  /** One job leaves its own client, and every client that had one, with a live document of the
      month in its folder. */
  lemma RecordHasSome(mode: Mode, env: Env, st: RunState, job: Job, name: string)
    requires job.rowNum >= 1
    requires HasSome(st.drive, env, name) || ClientName(job.row) == name
    ensures HasSome(Record(mode, env, st, job).drive, env, name)
  {
    var body := Content(mode, env, job.row);
    if ClientName(job.row) == name {
      WriteDocHasSome(mode, env, st.drive, name, body);
    } else {
      WriteDocOther(mode, env, st.drive, ClientName(job.row), body, name);
    }
  }

  /** After any pass over any Drive, every client of a job, and every client that had one
      before, has a live document of the month in its folder. */
  lemma {:induction false} RecordAllHasSome(mode: Mode, env: Env, st: RunState, jobs: seq<Job>, name: string)
    requires OnSheet(jobs)
    requires HasSome(st.drive, env, name) || name in JobNames(jobs)
    ensures HasSome(RecordAll(mode, env, st, jobs).drive, env, name)
  {
    if jobs != [] {
      var n := |jobs|;
      var init := jobs[..n - 1];
      assert JobNames(jobs) == JobNames(init) + {ClientName(jobs[n - 1].row)};
      if HasSome(st.drive, env, name) || name in JobNames(init) {
        RecordAllHasSome(mode, env, st, init, name);
      }
      RecordHasSome(mode, env, RecordAll(mode, env, st, init), jobs[n - 1], name);
    }
  }

  /** A client that has its document keeps exactly one through the rest of a pass. */
  lemma {:induction false} RecordAllKeepsDoc(mode: Mode, env: Env, st: RunState, jobs: seq<Job>, name: string)
    requires OnSheet(jobs) && HasDoc(st.drive, env, name)
    ensures HasDoc(RecordAll(mode, env, st, jobs).drive, env, name)
  {
    if jobs != [] {
      var n := |jobs|;
      RecordAllKeepsDoc(mode, env, st, jobs[..n - 1], name);
      RecordHasDoc(mode, env, RecordAll(mode, env, st, jobs[..n - 1]), jobs[n - 1], name);
    }
  }

  /** Drive has the same folders, each with as many files, and hands out the same next id:
      nothing was created. */
  predicate SameShape(a: DriveState, b: DriveState)
  {
    a.nextId == b.nextId && |a.folders| == |b.folders| &&
    forall fi | 0 <= fi < |a.folders| ::
      a.folders[fi].name == b.folders[fi].name && |a.folders[fi].files| == |b.folders[fi].files|
  }

  lemma SameShapeTrans(a: DriveState, b: DriveState, c: DriveState)
    requires SameShape(a, b) && SameShape(b, c)
    ensures SameShape(a, c)
  {
  }

  /** The reuse pass for a client whose folder holds a document of the month rewrites the
      first one and creates nothing. */
  lemma WriteDocReuses(env: Env, ds: DriveState, name: string, body: seq<Block>)
    requires HasSome(ds, env, name)
    ensures SameShape(WriteDoc(Reuse, env, ds, name, body).drive, ds)
  {
    var fi := FindFolder(ds.folders, name).value;
    FirstLiveCount(ds.folders[fi].files, DocName(env, name));
  }

  /** The reuse pass over clients that already have a document of the month creates nothing:
      no folder, no document, no new id. */
  lemma {:induction false} ReuseRerunCreatesNothing(env: Env, st: RunState, jobs: seq<Job>)
    requires OnSheet(jobs)
    requires forall name | name in JobNames(jobs) :: HasSome(st.drive, env, name)
    ensures SameShape(RecordAll(Reuse, env, st, jobs).drive, st.drive)
  {
    if jobs != [] {
      var n := |jobs|;
      var init := jobs[..n - 1];
      var job := jobs[n - 1];
      assert JobNames(jobs) == JobNames(init) + {ClientName(job.row)};
      ReuseRerunCreatesNothing(env, st, init);
      var prev := RecordAll(Reuse, env, st, init);
      RecordAllHasSome(Reuse, env, st, init, ClientName(job.row));
      WriteDocReuses(env, prev.drive, ClientName(job.row), Content(Reuse, env, job.row));
      SameShapeTrans(Record(Reuse, env, prev, job).drive, prev.drive, st.drive);
    }
  }

  // ---------------------------------------------------------------------------------------
  // Where the links point

  /** The links on the tracker row `t` of the client `client`, read against Drive `ds`: R opens
      the folder getOrCreateClientFolder finds for the client; in the reuse pass S opens the
      first live document of the month in that folder, and in the replace pass a document of
      the month in that folder holding the client's summary. */
  ghost predicate PointsAt(mode: Mode, env: Env, t: Row, ds: DriveState, client: Row)
  {
    var name := ClientName(client);
    match FindFolder(ds.folders, name)
    case None => false
    case Some(fi) =>
      var f := ds.folders[fi];
      CellAt(t, FolderLinkCol) == LinkCell(env.folderUrl(f.id), "Open Folder") &&
      match mode
      case Reuse =>
        (match FirstLive(f.files, DocName(env, name))
         case None => false
         case Some(k) => CellAt(t, DocLinkCol) == LinkCell(env.docUrl(f.files[k].id), "Open Doc"))
      case Replace =>
        exists k | 0 <= k < |f.files| ::
          f.files[k].name == DocName(env, name) && f.files[k].body == Content(Replace, env, client) &&
          CellAt(t, DocLinkCol) == LinkCell(env.docUrl(f.files[k].id), "Open Doc")
  }

  /** Writing the document of `name` leaves it where the links will look: in the folder
      getOrCreateClientFolder finds, as the first live document of the month (reuse pass) or as
      a document of the month holding `body` (replace pass). */
  lemma WriteDocPlaces(mode: Mode, env: Env, ds: DriveState, name: string, body: seq<Block>)
    ensures var w := WriteDoc(mode, env, ds, name, body);
            var docName := DocName(env, name);
            match FindFolder(w.drive.folders, name)
            case None => false
            case Some(fi) =>
              var files := w.drive.folders[fi].files;
              w.drive.folders[fi].id == w.folderId &&
              (mode == Reuse ==> FirstLive(files, docName).Some? && files[FirstLive(files, docName).value].id == w.docId) &&
              (mode == Replace ==> exists k | 0 <= k < |files| :: files[k] == DocFile(w.docId, docName, false, body))
  {
    GetOrCreateFolder(ds, name);
    var (ds1, fi) := GetOrCreate(ds, name);
    var folder := ds1.folders[fi];
    var docName := DocName(env, name);
    var p := PlaceDoc(mode, folder.files, ds1.nextId, docName, body);
    FindFolderIs(ds1.folders, name, 0, fi);
    FindFolderSameNames(ds1.folders, fi, p.files, name, 0);
    if mode == Replace {
      ReplaceLeavesOneLive(folder.files, ds1.nextId, docName, body);
    } else {
      match FirstLive(folder.files, docName)
      case Some(k) =>
        FirstLiveIs(p.files, docName, 0, k);
      case None =>
        FirstLiveIs(p.files, docName, 0, |folder.files|);
    }
  }

  /** The row one job links points at the folder and document that job wrote. */
  lemma RecordPointsAt(mode: Mode, env: Env, st: RunState, job: Job)
    requires 1 <= job.rowNum <= |st.tracker|
    ensures var r := Record(mode, env, st, job);
            |r.tracker| == |st.tracker| && PointsAt(mode, env, r.tracker[job.rowNum - 1], r.drive, job.row)
  {
    var name := ClientName(job.row);
    var body := Content(mode, env, job.row);
    var w := WriteDoc(mode, env, st.drive, name, body);
    var docUrl, folderUrl := env.docUrl(w.docId), env.folderUrl(w.folderId);
    var j := job.rowNum - 1;
    LinksAt(st.tracker, j, docUrl, folderUrl);
    var t := WithCell(WithCell(st.tracker[j], DocLinkCol, LinkCell(docUrl, "Open Doc")), FolderLinkCol, LinkCell(folderUrl, "Open Folder"));
    assert CellAt(t, DocLinkCol) == LinkCell(docUrl, "Open Doc");
    assert CellAt(t, FolderLinkCol) == LinkCell(folderUrl, "Open Folder");
    WriteDocPlaces(mode, env, st.drive, name, body);
  }

  /** The Doc URL of the summary row one job appends is the URL its S cell opens. */
  lemma RecordLogsLink(mode: Mode, env: Env, st: RunState, job: Job)
    requires 1 <= job.rowNum <= |st.tracker|
    ensures var r := Record(mode, env, st, job);
            |r.tracker| == |st.tracker| && |r.log| == |st.log| + 1 && r.log[..|st.log|] == st.log &&
            CellAt(r.tracker[job.rowNum - 1], DocLinkCol) == LinkCell(Show(ValueAt(r.log[|st.log|], 3)), "Open Doc")
  {
    var w := WriteDoc(mode, env, st.drive, ClientName(job.row), Content(mode, env, job.row));
    var docUrl, folderUrl := env.docUrl(w.docId), env.folderUrl(w.folderId);
    var j := job.rowNum - 1;
    LinksAt(st.tracker, j, docUrl, folderUrl);
    var t := WithCell(WithCell(st.tracker[j], DocLinkCol, LinkCell(docUrl, "Open Doc")), FolderLinkCol, LinkCell(folderUrl, "Open Folder"));
    assert CellAt(t, DocLinkCol) == LinkCell(docUrl, "Open Doc");
    assert ValueAt(LogRow(env, job.row, docUrl), 3) == Str(docUrl);
  }

  /** Writing a document, for the same client or another, leaves what an earlier row's links
      point at in place: the folder keeps its id, the reuse pass keeps rewriting the same first
      live document, and the replace pass only sends documents to the trash. */
  lemma WriteDocKeepsPointsAt(mode: Mode, env: Env, t: Row, ds: DriveState, client: Row, name: string, body: seq<Block>)
    requires PointsAt(mode, env, t, ds, client)
    ensures PointsAt(mode, env, t, WriteDoc(mode, env, ds, name, body).drive, client)
  {
    var own := ClientName(client);
    if name != own {
      WriteDocOther(mode, env, ds, name, body, own);
    } else {
      var fi := FindFolder(ds.folders, name).value;
      var files := ds.folders[fi].files;
      var docName := DocName(env, name);
      var p := PlaceDoc(mode, files, ds.nextId, docName, body);
      FindFolderSameNames(ds.folders, fi, p.files, name, 0);
      if mode == Reuse {
        var k := FirstLive(files, docName).value;
        FirstLiveIs(p.files, docName, 0, k);
      } else {
        var k :| 0 <= k < |files| && files[k].name == docName && files[k].body == Content(Replace, env, client) &&
                 CellAt(t, DocLinkCol) == LinkCell(env.docUrl(files[k].id), "Open Doc");
        assert p.files[k] == files[k].(trashed := true);
      }
    }
  }

  /** Every job's row points at its folder and document, read against Drive `ds`. */
  ghost predicate PointsAll(mode: Mode, env: Env, t: seq<Row>, ds: DriveState, jobs: seq<Job>)
    decreases |jobs|
  {
    jobs == [] ||
    (PointsAll(mode, env, t, ds, jobs[..|jobs| - 1]) &&
     var job := jobs[|jobs| - 1];
     1 <= job.rowNum <= |t| && PointsAt(mode, env, t[job.rowNum - 1], ds, job.row))
  }

  /** A job listed in `jobs` has its row pointing as PointsAll says. */
  lemma {:induction false} PointsAllHas(mode: Mode, env: Env, t: seq<Row>, ds: DriveState, jobs: seq<Job>, q: Job)
    requires PointsAll(mode, env, t, ds, jobs) && q in jobs
    ensures 1 <= q.rowNum <= |t| && PointsAt(mode, env, t[q.rowNum - 1], ds, q.row)
  {
    var init := jobs[..|jobs| - 1];
    var i :| 0 <= i < |jobs| && jobs[i] == q;
    if i < |jobs| - 1 {
      assert init[i] == q;
      PointsAllHas(mode, env, t, ds, init, q);
    }
  }

  /** The same, for the job of tracker row `i + 1`. */
  lemma PointsAllAt(mode: Mode, env: Env, t: seq<Row>, ds: DriveState, jobs: seq<Job>, row: Row, i: nat)
    requires PointsAll(mode, env, t, ds, jobs) && Job(row, i + 1) in jobs
    ensures i < |t| && PointsAt(mode, env, t[i], ds, row)
  {
    var q := Job(row, i + 1);
    PointsAllHas(mode, env, t, ds, jobs, q);
    assert q.rowNum - 1 == i && q.row == row;
  }

  /** Writing one document, and changing tracker rows of no listed job, keeps every listed
      job's links pointing where they did. */
  lemma {:induction false} PointsAllKeep(mode: Mode, env: Env, t: seq<Row>, ds: DriveState, t2: seq<Row>,
                                         name: string, body: seq<Block>, jobs: seq<Job>)
    requires PointsAll(mode, env, t, ds, jobs)
    requires |t2| == |t|
    requires forall q | q in jobs && 1 <= q.rowNum <= |t| :: t2[q.rowNum - 1] == t[q.rowNum - 1]
    ensures PointsAll(mode, env, t2, WriteDoc(mode, env, ds, name, body).drive, jobs)
  {
    if jobs != [] {
      var init := jobs[..|jobs| - 1];
      var job := jobs[|jobs| - 1];
      assert jobs == init + [job];
      PointsAllKeep(mode, env, t, ds, t2, name, body, init);
      WriteDocKeepsPointsAt(mode, env, t[job.rowNum - 1], ds, job.row, name, body);
    }
  }

  /** One more job below the earlier ones keeps what their links point at and points its own. */
  lemma PointsAllStep(mode: Mode, env: Env, prev: RunState, jobs: seq<Job>)
    requires jobs != [] && PointsAll(mode, env, prev.tracker, prev.drive, jobs[..|jobs| - 1])
    requires 1 <= jobs[|jobs| - 1].rowNum <= |prev.tracker|
    requires forall q | q in jobs[..|jobs| - 1] :: q.rowNum < jobs[|jobs| - 1].rowNum
    ensures var r := Record(mode, env, prev, jobs[|jobs| - 1]);
            |r.tracker| == |prev.tracker| && PointsAll(mode, env, r.tracker, r.drive, jobs)
  {
    var init := jobs[..|jobs| - 1];
    var job := jobs[|jobs| - 1];
    var r := Record(mode, env, prev, job);
    var name := ClientName(job.row);
    var body := Content(mode, env, job.row);
    var w := WriteDoc(mode, env, prev.drive, name, body);
    RecordPointsAt(mode, env, prev, job);
    LinksAt(prev.tracker, job.rowNum - 1, env.docUrl(w.docId), env.folderUrl(w.folderId));
    forall q | q in init && 1 <= q.rowNum <= |prev.tracker|
      ensures r.tracker[q.rowNum - 1] == prev.tracker[q.rowNum - 1]
    {
    }
    PointsAllKeep(mode, env, prev.tracker, prev.drive, r.tracker, name, body, init);
  }

  /** The summary rows from `start` on carry, in order, the URL the S cell of each job opens. */
  predicate LogsLinks(t: seq<Row>, log: seq<Row>, start: nat, jobs: seq<Job>)
  {
    |log| == start + |jobs| &&
    forall p | 0 <= p < |jobs| ::
      1 <= jobs[p].rowNum <= |t| &&
      CellAt(t[jobs[p].rowNum - 1], DocLinkCol) == LinkCell(Show(ValueAt(log[start + p], 3)), "Open Doc")
  }

  /** One more summary row and one more linked tracker row extend LogsLinks by one job, when
      the rows of the earlier jobs stay as they were. */
  lemma LogsLinksGrow(t: seq<Row>, log: seq<Row>, t2: seq<Row>, log2: seq<Row>, start: nat, init: seq<Job>, job: Job)
    requires LogsLinks(t, log, start, init)
    requires |t2| == |t| && |log2| == |log| + 1 && log2[..|log|] == log
    requires forall q | q in init && 1 <= q.rowNum <= |t| :: t2[q.rowNum - 1] == t[q.rowNum - 1]
    requires 1 <= job.rowNum <= |t2| && CellAt(t2[job.rowNum - 1], DocLinkCol) == LinkCell(Show(ValueAt(log2[|log|], 3)), "Open Doc")
    ensures LogsLinks(t2, log2, start, init + [job])
  {
    var jobs := init + [job];
    forall p | 0 <= p < |jobs|
      ensures 1 <= jobs[p].rowNum <= |t2| &&
              CellAt(t2[jobs[p].rowNum - 1], DocLinkCol) == LinkCell(Show(ValueAt(log2[start + p], 3)), "Open Doc")
    {
      if p < |init| {
        assert jobs[p] == init[p] && init[p] in init;
        assert log2[start + p] == log[start + p];
      }
    }
  }

  lemma LogsLinksStep(mode: Mode, env: Env, prev: RunState, start: nat, init: seq<Job>, job: Job)
    requires LogsLinks(prev.tracker, prev.log, start, init)
    requires 1 <= job.rowNum <= |prev.tracker|
    requires forall q | q in init :: q.rowNum < job.rowNum
    ensures var r := Record(mode, env, prev, job);
            |r.tracker| == |prev.tracker| && LogsLinks(r.tracker, r.log, start, init + [job])
  {
    var r := Record(mode, env, prev, job);
    var w := WriteDoc(mode, env, prev.drive, ClientName(job.row), Content(mode, env, job.row));
    RecordLogsLink(mode, env, prev, job);
    LinksAt(prev.tracker, job.rowNum - 1, env.docUrl(w.docId), env.folderUrl(w.folderId));
    forall q | q in init && 1 <= q.rowNum <= |prev.tracker|
      ensures r.tracker[q.rowNum - 1] == prev.tracker[q.rowNum - 1]
    {
    }
    LogsLinksGrow(prev.tracker, prev.log, r.tracker, r.log, start, init, job);
  }

  /** The last job lies below every earlier one. */
  lemma AscendingInit(jobs: seq<Job>)
    requires jobs != [] && Ascending(jobs)
    ensures Ascending(jobs[..|jobs| - 1])
    ensures forall q | q in jobs[..|jobs| - 1] :: q.rowNum < jobs[|jobs| - 1].rowNum
  {
  }

  /** Along a pass, every processed row's links point at what Drive holds at the end. */
  lemma {:induction false} RecordAllPoints(mode: Mode, env: Env, st: RunState, jobs: seq<Job>)
    requires Within(jobs, |st.tracker|) && Ascending(jobs)
    ensures OnSheet(jobs)
    ensures var r := RecordAll(mode, env, st, jobs);
            |r.tracker| == |st.tracker| && PointsAll(mode, env, r.tracker, r.drive, jobs)
  {
    if jobs != [] {
      var n := |jobs|;
      var init := jobs[..n - 1];
      WithinInit(jobs, |st.tracker|);
      AscendingInit(jobs);
      RecordAllPoints(mode, env, st, init);
      PointsAllStep(mode, env, RecordAll(mode, env, st, init), jobs);
    }
  }

  /** Along a pass, each summary row carries the URL its client's S cell opens. */
  lemma {:induction false} RecordAllLogsLinks(mode: Mode, env: Env, st: RunState, jobs: seq<Job>)
    requires Within(jobs, |st.tracker|) && Ascending(jobs)
    ensures OnSheet(jobs)
    ensures var r := RecordAll(mode, env, st, jobs);
            |r.tracker| == |st.tracker| && LogsLinks(r.tracker, r.log, |st.log|, jobs)
  {
    if jobs != [] {
      var n := |jobs|;
      var init := jobs[..n - 1];
      WithinInit(jobs, |st.tracker|);
      AscendingInit(jobs);
      RecordAllLogsLinks(mode, env, st, init);
      assert init + [jobs[n - 1]] == jobs;
      LogsLinksStep(mode, env, RecordAll(mode, env, st, init), |st.log|, init, jobs[n - 1]);
    }
  }

  /** The jobs of a tracker lie on it, in order. */
  lemma JobsFit(rows: seq<Row>)
    ensures var jobs := Jobs(Body(rows));
            OnSheet(jobs) && Within(jobs, |rows|) && Ascending(jobs)
  {
    var jobs := Jobs(Body(rows));
    JobsExact(Body(rows));
    JobsOrdered(Body(rows));
    forall k | 0 <= k < |jobs|
      ensures 1 <= jobs[k].rowNum <= |rows|
    {
      assert jobs[k] in jobs;
    }
  }

  /** Every tracker row that passes the checks is the row of a job, at its own position. */
  lemma JobsCover(rows: seq<Row>)
    ensures forall i | 1 <= i < |rows| && Qualifies(rows[i]) :: Job(rows[i], i + 1) in Jobs(Body(rows))
  {
    var data := Body(rows);
    var keep := Keeps(data);
    PickedComplete(data, keep);
    forall i | 1 <= i < |rows| && Qualifies(rows[i])
      ensures Job(rows[i], i + 1) in Jobs(data)
    {
      assert data[i - 1] == rows[i] && keep[i - 1];
    }
  }



  /** After a whole pass, the R cell of every processed row opens the client's folder and its S
      cell the document described by `PointsAt`, in the Drive the pass leaves. */
  lemma RolloverLinks(mode: Mode, env: Env, ds: DriveState, rows: seq<Row>)
    ensures var r := Rollover(mode, env, ds, rows);
            |r.tracker| == |rows| &&
            forall i | 1 <= i < |rows| && Qualifies(rows[i]) :: PointsAt(mode, env, r.tracker[i], r.drive, rows[i])
  {
    var jobs := Jobs(Body(rows));
    var st0 := RunState(ds, rows, [SummaryHeader], 0);
    JobsFit(rows);
    RecordAllPoints(mode, env, st0, jobs);
    JobsCover(rows);
    PointsOnRows(mode, env, rows, jobs, RecordAll(mode, env, st0, jobs));
  }

  /** What the jobs' links point at, read row by row. */
  lemma PointsOnRows(mode: Mode, env: Env, rows: seq<Row>, jobs: seq<Job>, r: RunState)
    requires |r.tracker| == |rows| && PointsAll(mode, env, r.tracker, r.drive, jobs)
    requires forall i | 1 <= i < |rows| && Qualifies(rows[i]) :: Job(rows[i], i + 1) in jobs
    ensures forall i | 1 <= i < |rows| && Qualifies(rows[i]) :: PointsAt(mode, env, r.tracker[i], r.drive, rows[i])
  {
    forall i | 1 <= i < |rows| && Qualifies(rows[i])
      ensures PointsAt(mode, env, r.tracker[i], r.drive, rows[i])
    {
      PointsAllAt(mode, env, r.tracker, r.drive, jobs, rows[i], i);
    }
  }

  /** After a whole pass, the summary row logged for the p-th processed client holds the URL
      that client's S cell opens. */
  lemma RolloverLogsLinks(mode: Mode, env: Env, ds: DriveState, rows: seq<Row>)
    ensures var r := Rollover(mode, env, ds, rows);
            LogsLinks(r.tracker, r.log, 1, Jobs(Body(rows)))
  {
    JobsFit(rows);
    RecordAllLogsLinks(mode, env, RunState(ds, rows, [SummaryHeader], 0), Jobs(Body(rows)));
  }

  // ---------------------------------------------------------------------------------------
  // A whole pass, in terms of the tracker's rows

  /** One more data row adds its sheet row to the rows of the jobs when its flag is set. */
  lemma PickedRowsSnoc(data: seq<Row>, keep: seq<bool>)
    requires |keep| == |data| && data != []
    ensures var n := |data|;
            JobRows(Picked(data, keep)) ==
            JobRows(Picked(data[..n - 1], keep[..n - 1])) + if keep[n - 1] then {n + 1} else {}
  {
    var n := |data|;
    var prev := Picked(data[..n - 1], keep[..n - 1]);
    var js := Picked(data, keep);
    if keep[n - 1] {
      assert js[..|js| - 1] == prev;
    } else {
      assert js == prev;
    }
  }

  lemma {:induction false} PickedRowsSound(data: seq<Row>, keep: seq<bool>)
    requires |keep| == |data|
    ensures forall r | r in JobRows(Picked(data, keep)) :: 2 <= r <= |data| + 1 && keep[r - 2]
  {
    if data != [] {
      var n := |data|;
      var init, flags := data[..n - 1], keep[..n - 1];
      PickedRowsSound(init, flags);
      PickedRowsSnoc(data, keep);
      forall r | r in JobRows(Picked(init, flags))
        ensures keep[r - 2]
      {
        assert flags[r - 2] == keep[r - 2];
      }
    }
  }

  lemma {:induction false} PickedRowsComplete(data: seq<Row>, keep: seq<bool>)
    requires |keep| == |data|
    ensures forall i | 0 <= i < |data| && keep[i] :: i + 2 in JobRows(Picked(data, keep))
  {
    if data != [] {
      var n := |data|;
      var init, flags := data[..n - 1], keep[..n - 1];
      PickedRowsComplete(init, flags);
      PickedRowsSnoc(data, keep);
      forall i | 0 <= i < n - 1 && keep[i]
        ensures i + 2 in JobRows(Picked(init, flags))
      {
        assert flags[i] == keep[i];
      }
    }
  }

  /** Each job's client is among the names of the jobs. */
  lemma {:induction false} JobNamesComplete(jobs: seq<Job>)
    ensures forall job | job in jobs :: ClientName(job.row) in JobNames(jobs)
  {
    if jobs != [] {
      var init := jobs[..|jobs| - 1];
      JobNamesComplete(init);
      forall job | job in jobs
        ensures ClientName(job.row) in JobNames(jobs)
      {
        if job != jobs[|jobs| - 1] {
          var k :| 0 <= k < |jobs| && jobs[k] == job;
          assert init[k] == job;
        }
      }
    }
  }

  /** Each name of the jobs is the client of one of them. */
  lemma {:induction false} JobNamesSound(jobs: seq<Job>, name: string)
    requires name in JobNames(jobs)
    ensures exists job | job in jobs :: ClientName(job.row) == name
  {
    var init := jobs[..|jobs| - 1];
    if name in JobNames(init) {
      JobNamesSound(init, name);
      var job :| job in init && ClientName(job.row) == name;
      assert job in jobs;
    } else {
      assert jobs[|jobs| - 1] in jobs;
    }
  }

  /** A pass counts and logs one row per client it processes, in tracker order, after the
      header: `createdCount` is the number of summary rows written. */
  lemma RolloverLog(mode: Mode, env: Env, ds: DriveState, rows: seq<Row>)
    ensures var r := Rollover(mode, env, ds, rows);
            var jobs := Jobs(Body(rows));
            r.count == |jobs| && Extends(r.log, [SummaryHeader], JobHeads(jobs))
  {
    var jobs := Jobs(Body(rows));
    JobsExact(Body(rows));
    RecordAllCount(mode, env, RunState(ds, rows, [SummaryHeader], 0), jobs);
    RecordAllLog(mode, env, RunState(ds, rows, [SummaryHeader], 0), jobs);
  }

  /** A pass puts the two links on the row of every client it processes and leaves every other
      row, the header included, as it was. */
  lemma RolloverTracker(mode: Mode, env: Env, ds: DriveState, rows: seq<Row>)
    ensures var t := Rollover(mode, env, ds, rows).tracker;
            |t| == |rows| && (rows != [] ==> t[0] == rows[0]) &&
            forall i | 1 <= i < |rows| ::
              if Qualifies(rows[i]) then LinkedFrom(t[i], rows[i]) else t[i] == rows[i]
  {
    var data := Body(rows);
    var jobs := Jobs(data);
    JobsExact(data);
    PickedRowsSound(data, Keeps(data));
    PickedRowsComplete(data, Keeps(data));
    assert Within(jobs, |rows|) by {
      forall k | 0 <= k < |jobs|
        ensures 1 <= jobs[k].rowNum <= |rows|
      {
        assert jobs[k] in jobs;
      }
    }
    RecordAllTracker(mode, env, RunState(ds, rows, [SummaryHeader], 0), jobs);
    forall i | 1 <= i < |rows|
      ensures Keeps(data)[i - 1] == Qualifies(rows[i])
    {
      assert data[i - 1] == rows[i];
    }
  }

  /** After a replace pass, or a safe pass over a Drive where no client folder holds two
      documents of the month, the folder of every processed client holds exactly one. */
  lemma RolloverDocs(mode: Mode, env: Env, ds: DriveState, rows: seq<Row>)
    requires mode == Replace || Tidy(ds, env)
    ensures var ds' := Rollover(mode, env, ds, rows).drive;
            (Tidy(ds, env) ==> Tidy(ds', env)) &&
            forall i | 1 <= i < |rows| && Qualifies(rows[i]) :: HasDoc(ds', env, ClientName(rows[i]))
  {
    JobsExact(Body(rows));
    QualifyingNames(rows);
    RecordAllDocs(mode, env, RunState(ds, rows, [SummaryHeader], 0), Jobs(Body(rows)));
  }

  /** Every client whose row passes the checks is among the names of the jobs. */
  lemma QualifyingNames(rows: seq<Row>)
    ensures forall i | 1 <= i < |rows| && Qualifies(rows[i]) :: ClientName(rows[i]) in JobNames(Jobs(Body(rows)))
  {
    var data := Body(rows);
    var keep := Keeps(data);
    PickedNames(data, keep);
    forall i | 1 <= i < |rows| && Qualifies(rows[i])
      ensures ClientName(rows[i]) in JobNames(Jobs(data))
    {
      assert data[i - 1] == rows[i] && keep[i - 1];
    }
  }

  lemma PickedNames(data: seq<Row>, keep: seq<bool>)
    requires |keep| == |data|
    ensures forall i | 0 <= i < |data| && keep[i] :: ClientName(data[i]) in JobNames(Picked(data, keep))
  {
    PickedComplete(data, keep);
    JobNamesComplete(Picked(data, keep));
  }

  /** The links touch neither the name, the plan nor the status, so a linked row is processed
      again under the same client name. */
  predicate SameClient(a: Row, b: Row)
  {
    Qualifies(a) == Qualifies(b) && ClientName(a) == ClientName(b)
  }

  lemma LinkedKeepsClient(after: Row, before: Row)
    requires LinkedFrom(after, before)
    ensures SameClient(after, before)
  {
    assert CellAt(after, NameCol) == CellAt(before, NameCol);
    assert CellAt(after, PlanCol) == CellAt(before, PlanCol);
    assert CellAt(after, StatusCol) == CellAt(before, StatusCol);
  }

  /** On a tracker whose rows name the same clients as `rows`, with the same verdicts, the
      clients a pass processes are among those of `rows` that pass the checks. */
  lemma SameClientsProcessed(rows: seq<Row>, t: seq<Row>, names: iset<string>)
    requires |t| == |rows|
    requires forall i | 1 <= i < |rows| :: SameClient(t[i], rows[i])
    requires forall i | 1 <= i < |rows| && Qualifies(rows[i]) :: ClientName(rows[i]) in names
    ensures forall name | name in JobNames(Jobs(Body(t))) :: name in names
  {
    var jobs := Jobs(Body(t));
    JobsExact(Body(t));
    forall name | name in JobNames(jobs)
      ensures name in names
    {
      JobNamesSound(jobs, name);
      var job :| job in jobs && ClientName(job.row) == name;
      var i := job.rowNum - 1;
      assert job.row == t[i] && SameClient(t[i], rows[i]);
    }
  }

  /** Running the safe rollover a second time, on the tracker and Drive the first run left,
      creates no folder, no document and no new id, whatever Drive held before the first run. */
  lemma SafeRolloverRerun(env: Env, ds: DriveState, rows: seq<Row>)
    ensures var first := Rollover(Reuse, env, ds, rows);
            SameShape(Rollover(Reuse, env, first.drive, first.tracker).drive, first.drive)
  {
    var first := Rollover(Reuse, env, ds, rows);
    var st0 := RunState(ds, rows, [SummaryHeader], 0);
    JobsExact(Body(rows));
    QualifyingNames(rows);
    forall i | 1 <= i < |rows| && Qualifies(rows[i])
      ensures HasSome(first.drive, env, ClientName(rows[i]))
    {
      RecordAllHasSome(Reuse, env, st0, Jobs(Body(rows)), ClientName(rows[i]));
    }
    RolloverTracker(Reuse, env, ds, rows);
    forall i | 1 <= i < |rows|
      ensures SameClient(first.tracker[i], rows[i])
    {
      if Qualifies(rows[i]) {
        LinkedKeepsClient(first.tracker[i], rows[i]);
      }
    }
    SameClientsProcessed(rows, first.tracker, iset name | HasSome(first.drive, env, name));
    JobsExact(Body(first.tracker));
    ReuseRerunCreatesNothing(env, RunState(first.drive, first.tracker, [SummaryHeader], 0), Jobs(Body(first.tracker)));
  }

  // ---------------------------------------------------------------------------------------
  // The passes

  /** The replace pass in folder `fi`: trash every file named `name`, create a new one and write
      `body` into it; returns the new file's position in the folder. */
  method ReplaceInFolder(drive: DriveService, fi: nat, name: string, body: seq<Block>) returns (k: nat)
    requires fi < |drive.folders|
    modifies drive
    ensures var p := ReplaceDoc(old(drive.folders[fi].files), old(drive.nextId), name, body);
            drive.folders == old(drive.folders)[fi := old(drive.folders[fi]).(files := p.files)] &&
            drive.nextId == p.nextId && k < |p.files| && p.files[k].id == p.id
  {
    ghost var files := drive.folders[fi].files;
    drive.TrashFilesNamed(fi, name);
    k := drive.CreateFile(fi, name);
    drive.SetBody(fi, k, body);
    ghost var t := TrashNamed(files, name);
    assert (t + [NewDoc(old(drive.nextId), name)])[k := NewDoc(old(drive.nextId), name).(body := body)]
        == t + [NewDoc(old(drive.nextId), name).(body := body)];
  }

  /** The reuse pass in folder `fi`: write `body` into the first live file named `name`, or into
      a new one when there is none; returns the file's position in the folder. */
  method ReuseInFolder(drive: DriveService, fi: nat, name: string, body: seq<Block>) returns (k: nat)
    requires fi < |drive.folders|
    modifies drive
    ensures var p := ReuseDoc(old(drive.folders[fi].files), old(drive.nextId), name, body);
            drive.folders == old(drive.folders)[fi := old(drive.folders[fi]).(files := p.files)] &&
            drive.nextId == p.nextId && k < |p.files| && p.files[k].id == p.id
  {
    ghost var files := drive.folders[fi].files;
    var live := drive.FindLiveFile(fi, name);
    if live.Some? {
      k := live.value;
      drive.SetBody(fi, k, body);
    } else {
      k := drive.CreateFile(fi, name);
      drive.SetBody(fi, k, body);
      assert (files + [NewDoc(old(drive.nextId), name)])[k := NewDoc(old(drive.nextId), name).(body := body)]
          == files + [NewDoc(old(drive.nextId), name).(body := body)];
    }
  }

  /** getOrCreateClientFolder, then the document of the month in that folder, by the pass's
      rule. Returns the ids getUrl is taken from. */
  method WriteDocument(mode: Mode, env: Env, drive: DriveService, name: string, body: seq<Block>)
    returns (docId: nat, folderId: nat)
    modifies drive
    ensures Written(drive.State(), docId, folderId) == WriteDoc(mode, env, old(drive.State()), name, body)
  {
    var fi := drive.GetOrCreateClientFolder(name);
    var docName := DocName(env, name);
    var k: nat;
    if mode == Replace {
      k := ReplaceInFolder(drive, fi, docName, body);
    } else {
      k := ReuseInFolder(drive, fi, docName, body);
    }
    docId := drive.folders[fi].files[k].id;
    folderId := drive.folders[fi].id;
  }

  /** The part of the callback after the three checks. */
  method RecordClient(mode: Mode, env: Env, drive: DriveService, tracker: Sheet, summary: Sheet,
                      job: Job, createdCount: nat)
    returns (count: nat)
    requires tracker.Valid() && summary.Valid() && tracker != summary
    requires 1 <= job.rowNum <= |tracker.rows|
    modifies drive, tracker`rows, summary`rows, summary`maxRows
    ensures tracker.Valid() && summary.Valid() && |tracker.rows| == old(|tracker.rows|)
    ensures RunState(drive.State(), tracker.rows, summary.rows, count) ==
            Record(mode, env, RunState(old(drive.State()), old(tracker.rows), old(summary.rows), createdCount), job)
  {
    var row := job.row;
    var docId, folderId := WriteDocument(mode, env, drive, ClientName(row), Content(mode, env, row));
    var docUrl := env.docUrl(docId);
    tracker.SetCell(job.rowNum, DocLinkCol, LinkCell(docUrl, "Open Doc"));
    if mode == Replace {
      summary.AppendRow(LogRow(env, row, docUrl));
      tracker.SetCell(job.rowNum, FolderLinkCol, LinkCell(env.folderUrl(folderId), "Open Folder"));
    } else {
      tracker.SetCell(job.rowNum, FolderLinkCol, LinkCell(env.folderUrl(folderId), "Open Folder"));
      summary.AppendRow(LogRow(env, row, docUrl));
    }
    count := createdCount + 1;
  }

  /** The `rows.forEach` callback for the data row on sheet row `rowNum`: the three checks that
      skip a row, then the document; returns the new `createdCount`. */
  method ProcessRow(mode: Mode, env: Env, drive: DriveService, tracker: Sheet, summary: Sheet,
                    row: Row, rowNum: nat, createdCount: nat)
    returns (count: nat)
    requires tracker.Valid() && summary.Valid() && tracker != summary
    requires 1 <= rowNum <= |tracker.rows|
    modifies drive, tracker`rows, summary`rows, summary`maxRows
    ensures tracker.Valid() && summary.Valid() && |tracker.rows| == old(|tracker.rows|)
    ensures !Qualifies(row) ==>
              drive.State() == old(drive.State()) && tracker.rows == old(tracker.rows) &&
              summary.rows == old(summary.rows) && count == createdCount
    ensures Qualifies(row) ==>
              RunState(drive.State(), tracker.rows, summary.rows, count) ==
              Record(mode, env, RunState(old(drive.State()), old(tracker.rows), old(summary.rows), createdCount), Job(row, rowNum))
  {
    var clientName := ValueAt(row, NameCol);
    var trimmedName := if clientName.Str? then Trim(clientName.s) else "";
    if trimmedName == "" {
      return createdCount;
    }
    var planType := ValueAt(row, PlanCol);
    if Truthy(planType) && KeyOf(planType) == "hosting" {
      return createdCount;
    }
    var status := ValueAt(row, StatusCol);
    if Truthy(status) && (KeyOf(status) == "inactive" || KeyOf(status) == "transitioning") {
      return createdCount;
    }
    count := RecordClient(mode, env, drive, tracker, summary, Job(row, rowNum), createdCount);
  }

  /** The loop of a pass, one data row further: the row's job, if it has one, is recorded. */
  lemma PassStep(mode: Mode, env: Env, start: RunState, data: seq<Row>, keep: seq<bool>, i: nat,
                 before: RunState, after: RunState)
    requires keep == Keeps(data) && i < |data|
    requires OnSheet(Picked(data[..i], keep[..i]))
    requires before == RecordAll(mode, env, start, Picked(data[..i], keep[..i]))
    requires Qualifies(data[i]) ==> after == Record(mode, env, before, Job(data[i], i + 2))
    requires !Qualifies(data[i]) ==> after == before
    ensures OnSheet(Picked(data[..i + 1], keep[..i + 1]))
    ensures after == RecordAll(mode, env, start, Picked(data[..i + 1], keep[..i + 1]))
  {
    var jobs := Picked(data[..i], keep[..i]);
    PickedSnoc(data, keep, i);
    if keep[i] {
      RecordAllSnoc(mode, env, start, jobs, Job(data[i], i + 2));
    } else {
      assert Picked(data[..i + 1], keep[..i + 1]) == jobs;
    }
  }

  /** A whole pass: clear "Document Summary" down to its header, read the tracker's rows once,
      run the callback on each data row; returns `createdCount`. */
  method RunPass(mode: Mode, env: Env, drive: DriveService, tracker: Sheet, summary: Sheet)
    returns (createdCount: nat)
    requires tracker.Valid() && summary.Valid() && tracker != summary
    modifies drive, tracker`rows, summary`rows, summary`maxRows
    ensures tracker.Valid() && summary.Valid()
    ensures RunState(drive.State(), tracker.rows, summary.rows, createdCount) ==
            Rollover(mode, env, old(drive.State()), old(tracker.rows))
  {
    summary.Clear();
    summary.AppendRow(SummaryHeader);
    var data := Body(tracker.rows);
    ghost var keep := Keeps(data);
    ghost var start := RunState(drive.State(), tracker.rows, summary.rows, 0);
    assert start == RunState(old(drive.State()), old(tracker.rows), [SummaryHeader], 0);
    ghost var jobs: seq<Job> := [];
    createdCount := 0;
    var i := 0;
    while i < |data|
      invariant 0 <= i <= |data|
      invariant tracker.Valid() && summary.Valid() && |tracker.rows| == |old(tracker.rows)|
      invariant jobs == Picked(data[..i], keep[..i]) && OnSheet(jobs)
      invariant RunState(drive.State(), tracker.rows, summary.rows, createdCount) == RecordAll(mode, env, start, jobs)
    {
      ghost var before := RunState(drive.State(), tracker.rows, summary.rows, createdCount);
      createdCount := ProcessRow(mode, env, drive, tracker, summary, data[i], i + 2, createdCount);
      ghost var after := RunState(drive.State(), tracker.rows, summary.rows, createdCount);
      PassStep(mode, env, start, data, keep, i, before, after);
      jobs := Picked(data[..i + 1], keep[..i + 1]);
      i := i + 1;
    }
    assert data[..i] == data && keep[..i] == keep;
  }

  /** monthlyRolloverAndCreateDocs(): the replace pass. */
  method MonthlyRolloverAndCreateDocs(env: Env, drive: DriveService, tracker: Sheet, summary: Sheet)
    returns (createdCount: nat)
    requires tracker.Valid() && summary.Valid() && tracker != summary
    modifies drive, tracker`rows, summary`rows, summary`maxRows
    ensures tracker.Valid() && summary.Valid()
    ensures RunState(drive.State(), tracker.rows, summary.rows, createdCount) ==
            Rollover(Replace, env, old(drive.State()), old(tracker.rows))
  {
    createdCount := RunPass(Replace, env, drive, tracker, summary);
  }

  /** monthlyRolloverAndCreateDocsSafe(): the reuse pass. */
  method MonthlyRolloverAndCreateDocsSafe(env: Env, drive: DriveService, tracker: Sheet, summary: Sheet)
    returns (createdCount: nat)
    requires tracker.Valid() && summary.Valid() && tracker != summary
    modifies drive, tracker`rows, summary`rows, summary`maxRows
    ensures tracker.Valid() && summary.Valid()
    ensures RunState(drive.State(), tracker.rows, summary.rows, createdCount) ==
            Rollover(Reuse, env, old(drive.State()), old(tracker.rows))
  {
    createdCount := RunPass(Reuse, env, drive, tracker, summary);
  }
}
