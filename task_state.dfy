/**
 * The weekly task state and the handlers that change it: the checkbox
 * toggle with its "all done today" calendar cascade, and the keyholder's
 * editor (add, delete, rename, save).
 */
module TaskState {
  import opened Wrappers
  import opened Text
  import opened RoleResolver
  import opened TimeKey
  import opened RemoteState

  /** A task of the checklist (`{id, label}`); `name` is the label text. */
  datatype Task = Task(id: string, name: string)

  /** A task's completion for one week, Monday = 0 to Friday = 4. */
  type Row = seq<bool>

  /** One week's completion, by task id. */
  type Week = map<string, Row>

  /** The completion table `weeklyDone`, by week key. */
  type Table = map<string, Week>

  /** The document fields the module reads at start-up; `None` is a missing field. */
  datatype Document = Document(weeklyTasksConfig: Option<seq<Task>>, weeklyDone: Option<Table>)

  /**
   * How the start-up read of the document ended: the parsed document, an
   * HTTP status that is not a success, or another thrown error, given as the
   * text `String(e)` shows for it.
   */
  datatype FetchOutcome =
    | Fetched(doc: Document)
    | FetchHttpError(status: nat)
    | FetchThrown(shown: string)

  /** What a patch request sets in the remote document. */
  datatype Payload =
    | WeeklyDone(weekKey: string, week: Week)
    | CalendarSet(ym: string, day: int, tags: seq<string>)
    | WeeklyTasksConfig(tasks: seq<Task>)

  /** A patch request: URL, token, acting party and payload. */
  datatype Patch = Patch(url: string, token: string, who: string, payload: Payload)

  // -----------------------------------------------------------------------
  // Completion rows and weeks

  function FalseRow(): Row {
    [false, false, false, false, false]
  }

  /** `done[taskId] || [false,false,false,false,false]`. */
  function RowOf(week: Week, id: string): Row {
    if id in week then week[id] else FalseRow()
  }

  /** The week's completion, or `{}` when the week has none yet. */
  function WeekOf(table: Table, key: string): Week {
    if key in table then table[key] else map[]
  }

  /**
   * `row[col] = value`: the row with one cell set. A row too short for the
   * column grows, and the cells between read as not done.
   */
  function SetCell(row: Row, col: nat, value: bool): (r: Row)
    ensures |r| == if col < |row| then |row| else col + 1
    ensures r[col] == value
    ensures forall i :: 0 <= i < |r| && i != col ==> r[i] == (i < |row| && row[i])
  {
    if col < |row| then row[col := value]
    else row + seq(col - |row|, _ => false) + [value]
  }

  /** The copied week with one cell of one task's row set. */
  function ToggledWeek(week: Week, id: string, col: nat, value: bool): (w: Week)
    ensures w.Keys == week.Keys + {id}
    ensures forall other :: other in week && other != id ==> w[other] == week[other]
  {
    week[id := SetCell(RowOf(week, id), col, value)]
  }

  /** `(done[id] || [])[col] === true`: the cell is recorded as done. */
  predicate IsDone(week: Week, id: string, col: nat)
    ensures id !in week ==> !IsDone(week, id, col)
  {
    id in week && col < |week[id]| && week[id][col]
  }

  /** After a toggle the cell reads back as the new value, and every other cell as before. */
  lemma ToggleReadBack(week: Week, id: string, col: nat, value: bool, id2: string, col2: nat)
    requires col < 5
    ensures IsDone(ToggledWeek(week, id, col, value), id, col) == value
    ensures (id2 != id || col2 != col) ==>
              IsDone(ToggledWeek(week, id, col, value), id2, col2) == IsDone(week, id2, col2)
  {
  }

  /** Toggling a cell and then setting it back to what it read leaves every cell reading as before. */
  lemma ToggleUndo(week: Week, id: string, col: nat, value: bool, id2: string, col2: nat)
    requires col < 5
    ensures IsDone(ToggledWeek(ToggledWeek(week, id, col, value), id, col, IsDone(week, id, col)), id2, col2)
              == IsDone(week, id2, col2)
  {
  }

  /** A task with no row yet starts from five unchecked days. */
  lemma ToggleMissingRow(week: Week, id: string, col: nat, value: bool)
    requires col < 5 && id !in week
    ensures ToggledWeek(week, id, col, value)[id] == FalseRow()[col := value]
  {
  }

  /** Checking Wednesday of t1 in an empty week gives t1 the row [false,false,true,false,false]. */
  lemma ToggleWednesdayExample(week: Week)
    requires week == map[]
    ensures ToggledWeek(week, "t1", 2, true)["t1"] == [false, false, true, false, false]
  {
  }

  // -----------------------------------------------------------------------
  // "All tasks done today"

  /** `config.every(t => (done[t.id]||[])[col] === true)`. */
  function AllTasksDone(config: seq<Task>, week: Week, col: nat): (b: bool)
    ensures b <==> forall i :: 0 <= i < |config| ==> IsDone(week, config[i].id, col)
  {
    if config == [] then true
    else IsDone(week, config[0].id, col) && AllTasksDone(config[1..], week, col)
  }

  /** The cascade condition: a weekday column, a non-empty checklist, every task done in that column. */
  predicate AllDoneToday(config: seq<Task>, week: Week, col: int)
    ensures AllDoneToday(config, week, col) <==>
      && col >= 0 && |config| > 0
      && forall i :: 0 <= i < |config| ==> IsDone(week, config[i].id, col)
  {
    col >= 0 && |config| > 0 && AllTasksDone(config, week, col)
  }

  /** An empty checklist is never "all done", whatever the week holds. */
  lemma EmptyChecklistNeverAllDone(week: Week, col: int)
    ensures !AllDoneToday([], week, col)
  {
  }

  /** The weekend has no column, so it is never "all done". */
  lemma WeekendNeverAllDone(config: seq<Task>, week: Week, w: Weekday)
    requires w == Sat || w == Sun
    ensures !AllDoneToday(config, week, TodayColIndex(w))
  {
  }

  /** Checking a cell completes the column exactly when every other task was already done there. */
  lemma CheckingCompletesColumn(config: seq<Task>, week: Week, id: string, col: nat)
    requires col < 5
    ensures AllTasksDone(config, ToggledWeek(week, id, col, true), col) <==>
              forall i :: 0 <= i < |config| && config[i].id != id ==> IsDone(week, config[i].id, col)
  {
  }

  /** Unchecking a cell leaves the column incomplete for every checklist holding that task. */
  lemma UncheckingBreaksColumn(config: seq<Task>, week: Week, id: string, col: nat, i: nat)
    requires col < 5 && i < |config| && config[i].id == id
    ensures !AllTasksDone(config, ToggledWeek(week, id, col, false), col)
  {
  }

  // -----------------------------------------------------------------------
  // The editor's list operations

  /** The ids of a checklist, in order. */
  function Ids(config: seq<Task>): (ids: seq<string>)
    ensures |ids| == |config|
    ensures forall i :: 0 <= i < |config| ==> ids[i] == config[i].id
  {
    if config == [] then [] else [config[0].id] + Ids(config[1..])
  }

  /** `cfg.splice(idx, 1)`: the list without its element at `idx`, the rest in order. */
  function RemoveAt(config: seq<Task>, idx: nat): (r: seq<Task>)
    requires idx < |config|
    ensures |r| == |config| - 1
    ensures forall j :: 0 <= j < |r| ==> r[j] == if j < idx then config[j] else config[j + 1]
    ensures multiset(r) + multiset{config[idx]} == multiset(config)
  {
    assert config == config[..idx] + [config[idx]] + config[idx + 1..];
    config[..idx] + config[idx + 1..]
  }

  /** `task.label = value` for the task at `idx`. */
  function Renamed(config: seq<Task>, idx: nat, name: string): (r: seq<Task>)
    requires idx < |config|
    ensures Ids(r) == Ids(config)
    ensures r[idx].name == name
    ensures forall j :: 0 <= j < |r| && j != idx ==> r[j] == config[j]
  {
    config[idx := Task(config[idx].id, name)]
  }

  /** The task a click on "Add" appends. */
  function NewTask(suffix: string): Task {
    Task("t" + suffix, "New Task")
  }

  /** Adding then deleting the new task gives the checklist back. */
  lemma AddThenDeleteRestores(config: seq<Task>, suffix: string)
    ensures RemoveAt(config + [NewTask(suffix)], |config|) == config
  {
  }

  // -----------------------------------------------------------------------
  // The checklist as saved: `map(t => ({id, label: trim})).filter(t => t.label)`

  function CleanTask(t: Task): Task {
    Task(t.id, Trim(t.name))
  }

  /** The checklist a save sends: labels trimmed, tasks with an empty trimmed label dropped. */
  function Clean(config: seq<Task>): (r: seq<Task>)
    ensures |r| <= |config|
  {
    if config == [] then []
    else
      var t := CleanTask(config[0]);
      var rest := Clean(config[1..]);
      if t.name != [] then [t] + rest else rest
  }

  /** Every saved label is non-empty and already trimmed. */
  lemma {:induction false} CleanLabelsTrimmed(config: seq<Task>, t: Task)
    requires t in Clean(config)
    ensures t.name != [] && Trim(t.name) == t.name
  {
    if CleanTask(config[0]).name != [] && CleanTask(config[0]) == t {
      TrimIdempotent(config[0].name);
    } else {
      CleanLabelsTrimmed(config[1..], t);
    }
  }

  /** Every saved task comes from a task of the checklist: same id, its label trimmed. */
  lemma {:induction false} CleanOnlyFrom(config: seq<Task>, t: Task)
    requires t in Clean(config)
    ensures exists i :: 0 <= i < |config| && t == CleanTask(config[i])
  {
    if CleanTask(config[0]) != t {
      CleanOnlyFrom(config[1..], t);
      var i :| 0 <= i < |config[1..]| && t == CleanTask(config[1..][i]);
      assert t == CleanTask(config[i + 1]);
    }
  }

  /** Cleaning works task by task: it keeps the order of the checklist. */
  lemma {:induction false} CleanAppend(a: seq<Task>, b: seq<Task>)
    ensures Clean(a + b) == Clean(a) + Clean(b)
  {
    if a == [] {
      assert a + b == b;
    } else {
      assert (a + b)[0] == a[0];
      assert (a + b)[1..] == a[1..] + b;
      CleanAppend(a[1..], b);
    }
  }

  /** Every task whose trimmed label is non-empty survives a save, with that trimmed label and its id. */
  lemma {:induction false} CleanKeeps(config: seq<Task>, i: nat)
    requires i < |config| && Trim(config[i].name) != []
    ensures CleanTask(config[i]) in Clean(config)
  {
    if i > 0 {
      CleanKeeps(config[1..], i - 1);
    }
  }

  /** Saving an already saved checklist changes nothing. */
  lemma {:induction false} CleanIdempotent(config: seq<Task>)
    ensures Clean(Clean(config)) == Clean(config)
  {
    if config != [] {
      var t := CleanTask(config[0]);
      CleanIdempotent(config[1..]);
      if t.name != [] {
        TrimIdempotent(config[0].name);
        CleanAppend([t], Clean(config[1..]));
        assert Clean([t]) == [t] by {
          assert [t][1..] == [];
        }
      }
    }
  }

  /** `[{t1," Wash "},{t2,"   "}]` is saved as `[{t1,"Wash"}]`. */
  lemma CleanExample(config: seq<Task>)
    requires config == [Task("t1", " Wash "), Task("t2", "   ")]
    ensures Clean(config) == [Task("t1", "Wash")]
  {
    var wash := config[0].name;
    assert wash[1..] == "Wash ";
    assert TrimStart(wash) == "Wash ";
    assert TrimEnd("Wash ") == "Wash" by {
      assert "Wash "[..4] == "Wash";
      TrimEndFixed("Wash");
    }
    var blank := config[1].name;
    assert AllWhitespace(blank);
    assert Clean(config[1..]) == [] by {
      assert config[1..][1..] == [];
    }
  }

  // -----------------------------------------------------------------------
  // Who may do what

  /** Only the two parties may record completion; a viewer is asked to choose a role. */
  predicate CanMarkDone(role: Role) {
    role == Keyholder || role == Sub
  }

  /** The `who` field of a patch: "sub" for the sub, "keyholder" otherwise. */
  function Who(role: Role): (r: string)
    ensures r == "sub" || r == "keyholder"
    ensures r == "sub" <==> role == Sub
  {
    if role == Sub then "sub" else "keyholder"
  }

  /** The bearer token of the acting party. */
  function TokenFor(cfg: Cfg, role: Role): (r: string)
    ensures role == Sub ==> r == cfg.tokenSub
    ensures role != Sub ==> r == cfg.tokenKey
  {
    if Who(role) == "sub" then cfg.tokenSub else cfg.tokenKey
  }

  /**
   * The calendar tag for a completed day: its day number and tag "done",
   * under a month key of the year's digits and the zero-padded month.
   */
  function CalendarPatchFor(today: Date): (r: Payload)
    requires ValidDate(today)
    ensures r.CalendarSet? && r.day == today.day && r.tags == ["done"]
    ensures today.year >= 0 ==> ParseNumbers(r.ym) == Some([today.year, today.month])
    ensures today.year >= 0 ==>
      var p := Split(r.ym, '-');
      |p| == 2 && p[0] == NatToString(today.year) && |p[1]| == 2 && AllDigits(p[1])
  {
    CalendarSet(YearMonth(today), today.day, ["done"])
  }

  /**
   * The banner `init` raises: an error banner exactly when a remote URL is
   * configured and the read did not yield a document; a thrown error is
   * shown as it prints.
   */
  function StartBanner(cfg: Cfg, fetched: FetchOutcome): (b: Option<Flash>)
    ensures b.Some? <==> HasRemote(cfg) && !fetched.Fetched?
    ensures b.Some? ==> b.value.kind == ErrorKind
    ensures b.Some? && fetched.FetchThrown? ==> b.value.text == fetched.shown
  {
    if !HasRemote(cfg) then None
    else
      match fetched
      case Fetched(_) => None
      case FetchHttpError(status) => Some(Flash("Error: GET failed: HTTP " + NatToString(status), ErrorKind))
      case FetchThrown(shown) => Some(Flash(shown, ErrorKind))
  }

  /** A read refused by the server shows `GET failed` with the HTTP status. */
  lemma StartBannerNamesStatus(cfg: Cfg, status: nat)
    requires HasRemote(cfg)
    ensures StartBanner(cfg, FetchHttpError(status)).Some?
    ensures Contains(StartBanner(cfg, FetchHttpError(status)).value.text, "GET failed")
    ensures Contains(StartBanner(cfg, FetchHttpError(status)).value.text, NatToString(status))
  {
    var n := NatToString(status);
    var m := StartBanner(cfg, FetchHttpError(status)).value.text;
    assert m == "Error: " + "GET failed" + (": HTTP " + n);
    OccursInMiddle("Error: ", "GET failed", ": HTTP " + n);
    assert m == "Error: GET failed: HTTP " + n + "";
    OccursInMiddle("Error: GET failed: HTTP ", n, "");
  }

  /** Characters `Math.random().toString(36).slice(2, 8)` can produce. */
  predicate IsRandomSuffix(s: string) {
    |s| <= 6 && forall i :: 0 <= i < |s| ==> ('0' <= s[i] <= '9' || 'a' <= s[i] <= 'z')
  }

  // -----------------------------------------------------------------------
  // The live state and its handlers

  class WeeklyTasks {
    const cfg: Cfg
    /** `state.weeklyTasksConfig`: the live checklist, edited in place by the editor. */
    var config: seq<Task>
    /** `state.weeklyDone`: the committed completion table. */
    var done: Table
    /** The banner raised while the state was read, if any. */
    const startBanner: Option<Flash>

    /**
     * `init`: the fetched document when a remote URL is configured and the
     * read succeeded, else an empty state; a failed read raises the start-up
     * banner. Without a remote URL nothing is read.
     */
    constructor (cfg: Cfg, fetched: FetchOutcome)
      ensures this.cfg == cfg
      ensures HasRemote(cfg) && fetched.Fetched? ==>
                config == fetched.doc.weeklyTasksConfig.GetOr([]) &&
                done == fetched.doc.weeklyDone.GetOr(map[])
      ensures !(HasRemote(cfg) && fetched.Fetched?) ==> config == [] && done == map[]
      ensures startBanner == StartBanner(cfg, fetched)
    {
      this.cfg := cfg;
      config := [];
      done := map[];
      startBanner := StartBanner(cfg, fetched);
      if HasRemote(cfg) && fetched.Fetched? {
        config := fetched.doc.weeklyTasksConfig.GetOr([]);
        done := fetched.doc.weeklyDone.GetOr(map[]);
      }
    }

    /**
     * The checkbox handler: the `taskId`/`col` checkbox was set to `checked`
     * at the instant `today`, by the role the page signals resolve to at
     * that moment. Returns the patches sent, in order,
     * and the banner shown. The completion table changes only after the
     * completion patch succeeds (or when no remote is configured); a failed
     * calendar patch afterwards does not undo it.
     */
    method Toggle(signals: Signals, today: Today, taskId: string, col: nat, checked: bool,
                  response: Response, calendarResponse: Response)
      returns (sent: seq<Patch>, flash: Flash)
      requires ValidToday(today) && col < 5
      modifies this
      ensures config == old(config)
      ensures !CanMarkDone(ResolveRole(signals)) ==>
                done == old(done) && sent == [] && flash == Flash("Choose a role", ErrorKind)
      ensures var role := ResolveRole(signals);
              CanMarkDone(role) ==>
                var key := WeekKey(today);
                var week := ToggledWeek(WeekOf(old(done), key), taskId, col, checked);
                var committed := !HasRemote(cfg) || ClassifyPatch(response).Accepted?;
                var tagged := committed && HasRemote(cfg) &&
                               AllDoneToday(config, week, TodayColIndex(today.weekday));
                && done == (if committed then old(done)[key := week] else old(done))
                && sent == (if HasRemote(cfg) then [Patch(cfg.remoteUrl, TokenFor(cfg, role), Who(role), WeeklyDone(key, week))] else [])
                         + (if tagged then [Patch(cfg.remoteUrl, TokenFor(cfg, role), Who(role), CalendarPatchFor(today.date))] else [])
                && flash == (if !committed then Flash(ClassifyPatch(response).shown, ErrorKind)
                             else if tagged && ClassifyPatch(calendarResponse).Rejected? then Flash(ClassifyPatch(calendarResponse).shown, ErrorKind)
                             else Flash("Saved", SuccessKind))
    {
      var role := ResolveRole(signals);
      if !(role == Keyholder || role == Sub) {
        sent, flash := [], Flash("Choose a role", ErrorKind);
        return;
      }
      var who := Who(role);
      var token := TokenFor(cfg, role);
      var weekKey := WeekKey(today);
      var week := WeekOf(done, weekKey);
      var row := RowOf(week, taskId);
      row := SetCell(row, col, checked);
      week := week[taskId := row];
      sent := [];
      if cfg.remoteUrl != "" {
        sent := [Patch(cfg.remoteUrl, token, who, WeeklyDone(weekKey, week))];
        var result := ClassifyPatch(response);
        if result.Rejected? {
          flash := Flash(result.shown, ErrorKind);
          return;
        }
      }
      done := done[weekKey := week];
      flash := Flash("Saved", SuccessKind);
      var idx := TodayColIndex(today.weekday);
      if idx >= 0 {
        var allToday := |config| > 0 && AllTasksDone(config, week, idx);
        if allToday && cfg.remoteUrl != "" {
          sent := sent + [Patch(cfg.remoteUrl, token, who, CalendarPatchFor(today.date))];
          var calendarResult := ClassifyPatch(calendarResponse);
          if calendarResult.Rejected? {
            flash := Flash(calendarResult.shown, ErrorKind);
          }
        }
      }
    }

    /**
     * The "Add" button: the keyholder, as resolved from the page signals at
     * the click, appends a task `t<suffix>` labelled "New Task".
     */
    method AddTask(signals: Signals, suffix: string) returns (flash: Option<Flash>)
      requires IsRandomSuffix(suffix)
      modifies this
      ensures done == old(done)
      ensures ResolveRole(signals) != Keyholder ==>
                config == old(config) && flash == Some(Flash("Keyholder mode required", ErrorKind))
      ensures ResolveRole(signals) == Keyholder ==> config == old(config) + [NewTask(suffix)] && flash == None
    {
      var role := ResolveRole(signals);
      if role != Keyholder {
        flash := Some(Flash("Keyholder mode required", ErrorKind));
        return;
      }
      var id := "t" + suffix;
      config := config + [Task(id, "New Task")];
      flash := None;
    }

    /**
     * The "Delete" button of row `idx`; `role` is the one resolved when the
     * editor was rendered. Anyone else is ignored silently.
     */
    method DeleteAt(role: Role, idx: nat)
      requires idx < |config|
      modifies this
      ensures done == old(done)
      ensures config == if role == Keyholder then RemoveAt(old(config), idx) else old(config)
    {
      if role != Keyholder {
        return;
      }
      config := config[..idx] + config[idx + 1..];
    }

    /** Typing in the label field of row `idx`; `role` as for `DeleteAt`. */
    method Rename(role: Role, idx: nat, name: string)
      requires idx < |config|
      modifies this
      ensures done == old(done)
      ensures config == if role == Keyholder then Renamed(old(config), idx, name) else old(config)
    {
      if role != Keyholder {
        return;
      }
      config := config[idx := Task(config[idx].id, name)];
    }

    /**
     * The "Save" button: the keyholder, as resolved from the page signals at
     * the click, sends the cleaned checklist with the
     * keyholder token, and it becomes the live checklist only once the patch
     * succeeds (or when no remote is configured).
     */
    method Save(signals: Signals, response: Response) returns (sent: seq<Patch>, flash: Flash)
      modifies this
      ensures done == old(done)
      ensures ResolveRole(signals) != Keyholder ==>
                config == old(config) && sent == [] && flash == Flash("Keyholder mode required", ErrorKind)
      ensures ResolveRole(signals) == Keyholder ==>
                var clean := Clean(old(config));
                var committed := !HasRemote(cfg) || ClassifyPatch(response).Accepted?;
                && sent == (if HasRemote(cfg) then [Patch(cfg.remoteUrl, cfg.tokenKey, "keyholder", WeeklyTasksConfig(clean))] else [])
                && config == (if committed then clean else old(config))
                && flash == (if committed then Flash("Weekly tasks saved", SuccessKind)
                             else Flash(ClassifyPatch(response).shown, ErrorKind))
    {
      var role := ResolveRole(signals);
      if role != Keyholder {
        sent, flash := [], Flash("Keyholder mode required", ErrorKind);
        return;
      }
      var clean := Clean(config);
      sent := [];
      if cfg.remoteUrl != "" {
        sent := [Patch(cfg.remoteUrl, cfg.tokenKey, "keyholder", WeeklyTasksConfig(clean))];
        var result := ClassifyPatch(response);
        if result.Rejected? {
          flash := Flash(result.shown, ErrorKind);
          return;
        }
      }
      config := clean;
      flash := Flash("Weekly tasks saved", SuccessKind);
    }
  }
}
