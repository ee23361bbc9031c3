/** Form streaming: Client::send_form drives the items of a form one after another; a file takes its
    time, the other items are written at once. */
module FormStreaming {

  /** FormField, FormEmbeddedFile and FormFile. */
  datatype Item = Field(name: string, content: string) | Embedded(name: string, content: string) | File(name: string)

  /** What is written: the start of item `i`, file data of item `i`, and the form's trailer. */
  datatype Part = Plain(i: nat, name: string, content: string) | FileHead(i: nat, name: string) | Data(i: nat, text: string) | Trailer

  /** `field` is `_form_field`, `sent` is `_transfer_completed`, `running` are the files with a live
      streamer. History: the parts written, the data that each file has given, the files stopped. */
  datatype Sender = Sender(
    items: seq<Item>,
    field: int,
    sent: bool,
    reading: bool,     // read_start has been called for this form; a reused connection is reading already
    active: bool,
    running: set<nat>,
    out: seq<Part>,
    data: seq<seq<string>>,
    stopped: seq<nat>)

  // ---------------------------------------------------------------- the operations

  /** IFormItem::start: true when the item is done. */
  function StartItem(s: Sender, i: nat): (Sender, bool)
    requires i < |s.items|
  {
    match s.items[i]
    case Field(name, content) => (s.(out := s.out + [Plain(i, name, content)]), true)
    case Embedded(name, content) => (s.(out := s.out + [FileHead(i, name), Data(i, content)]), true)
    case File(name) => (s.(running := s.running + {i}, out := s.out + [FileHead(i, name)]), false)
  }

  /** Client::send_form. */
  function SendForm(s: Sender): Sender
    requires 0 <= s.field <= |s.items|
    decreases |s.items| - s.field
  {
    if s.field == |s.items| then
      s.(field := -1, sent := true, reading := true, out := s.out + [Trailer])
    else
      var (t, done) := StartItem(s, s.field);
      if done then SendForm(t.(field := s.field + 1)) else t
  }

  /** Client::request with a form. */
  function Begin(items: seq<Item>): Sender {
    SendForm(Sender(items, 0, false, false, true, {}, [], seq(|items|, i => []), []))
  }

  /** The end of finish_request: the pending item is stopped; only files have something to stop. */
  function Finish(s: Sender): Sender {
    var t := s.(active := false);
    if s.field < 0 then t
    else if s.field in s.running then t.(field := -1, running := s.running - {s.field}, stopped := s.stopped + [s.field])
    else t.(field := -1)
  }

  /** A file gives some data, comes to its end, or fails; the request ends in another way. */
  datatype Step = FileData(text: string) | FileDone | FileFailed | Ended

  function Next(s: Sender, step: Step): Sender {
    match step
    case FileData(text) =>
      if 0 <= s.field < |s.data| then
        s.(out := s.out + [Data(s.field, text)], data := s.data[s.field := s.data[s.field] + [text]])
      else s
    case FileDone =>
      if 0 <= s.field < |s.items| then SendForm(s.(field := s.field + 1, running := s.running - {s.field})) else s
    case FileFailed => Finish(s)
    case Ended => Finish(s)
  }

  /** Events come from the streamer of the pending file. */
  predicate Enabled(s: Sender, step: Step) {
    s.active && (step.Ended? || s.field in s.running)
  }

  function Run(s: Sender, steps: seq<Step>): Sender {
    if steps == [] then s else Next(Run(s, steps[..|steps| - 1]), steps[|steps| - 1])
  }

  predicate Legal(s: Sender, steps: seq<Step>) {
    if steps == [] then true
    else
      && Legal(s, steps[..|steps| - 1])
      && Enabled(Run(s, steps[..|steps| - 1]), steps[|steps| - 1])
  }

  // ---------------------------------------------------------------- reference: one item after another

  function DataParts(i: nat, texts: seq<string>): seq<Part> {
    if texts == [] then [] else DataParts(i, texts[..|texts| - 1]) + [Data(i, texts[|texts| - 1])]
  }

  /** One item as it should be written. */
  function Render(i: nat, item: Item, texts: seq<string>): seq<Part> {
    match item
    case Field(name, content) => [Plain(i, name, content)]
    case Embedded(name, content) => [FileHead(i, name), Data(i, content)]
    case File(name) => [FileHead(i, name)] + DataParts(i, texts)
  }

  /** The first `n` items, one after another. */
  function Written(items: seq<Item>, data: seq<seq<string>>, n: nat): seq<Part>
    requires n <= |items| == |data|
  {
    if n == 0 then [] else Written(items, data, n - 1) + Render(n - 1, items[n - 1], data[n - 1])
  }

  // ---------------------------------------------------------------- invariant

  ghost predicate Shape(s: Sender) {
    && |s.data| == |s.items|
    && -1 <= s.field < |s.items|
    && (s.field >= 0 ==> s.items[s.field].File? && s.running == {s.field} && s.active && !s.sent)
    && (s.field < 0 ==> s.running == {})
    && (s.sent ==> s.field < 0 && s.stopped == [])
    && (s.active ==> s.stopped == [] && (s.field >= 0 || s.sent))
    && (s.reading <==> s.sent)
  }

  /** The parts written are those of the first `n` items, and the trailer if all has been sent. */
  ghost predicate Wrote(s: Sender, n: nat) {
    n <= |s.items| == |s.data| && s.out == Written(s.items, s.data, n) + if s.sent then [Trailer] else []
  }

  /** Items that have not been started have given no data. */
  ghost predicate Silent(s: Sender, n: nat) {
    n <= |s.data| && forall i :: n <= i < |s.data| ==> s.data[i] == []
  }

  ghost predicate Inv(s: Sender) {
    && Shape(s)
    && exists n: nat :: Account(s, n)
  }

  ghost predicate Account(s: Sender, n: nat) {
    && Wrote(s, n) && Silent(s, n)
    && (s.field >= 0 ==> n == s.field + 1)
    && (s.sent ==> n == |s.items|)
    && (!s.active && !s.sent ==> |s.stopped| == 1 && n == s.stopped[0] + 1)
  }

  lemma WrittenStart(s: Sender, i: nat)
    requires i < |s.items| && Wrote(s, i) && Silent(s, i) && !s.sent
    ensures Wrote(StartItem(s, i).0, i + 1)
  {
    assert DataParts(i, []) == [];
    WrittenMore(s.items, s.data, i);
    hide Written, DataParts;
  }

  /** send_form writes complete items up to the next file, or all of them and the trailer. */
  lemma {:induction false} SendFormKeeps(s: Sender)
    requires 0 <= s.field <= |s.items| && s.active && !s.sent && !s.reading && s.running == {} && s.stopped == []
    requires Wrote(s, s.field) && Silent(s, s.field)
    ensures Inv(SendForm(s)) && SendForm(s).active && SendForm(s).items == s.items
    decreases |s.items| - s.field
  {
    hide Written;
    var d := SendForm(s);
    if s.field == |s.items| {
      assert Account(d, |s.items|);
    } else {
      WrittenStart(s, s.field);
      var (t, done) := StartItem(s, s.field);
      if done {
        SendFormKeeps(t.(field := s.field + 1));
      } else {
        assert Account(d, s.field + 1);
      }
    }
  }

  lemma BeginKeeps(items: seq<Item>)
    ensures Inv(Begin(items)) && Begin(items).items == items
  {
    SendFormKeeps(Sender(items, 0, false, false, true, {}, [], seq(|items|, i => []), []));
  }

  lemma {:induction false} WrittenSame(items: seq<Item>, data: seq<seq<string>>, other: seq<seq<string>>, n: nat)
    requires n <= |items| == |data| == |other| && forall i :: 0 <= i < n ==> data[i] == other[i]
    ensures Written(items, data, n) == Written(items, other, n)
  {
    if n > 0 { WrittenSame(items, data, other, n - 1); }
  }

  lemma DataKeeps(s: Sender, text: string, n: nat)
    requires Shape(s) && Account(s, n) && s.field in s.running
    ensures Shape(Next(s, FileData(text))) && Account(Next(s, FileData(text)), n)
  {
    DataShape(s, text);
    DataWrote(s, text);
    DataSilent(s, text);
    hide Shape, Wrote, Silent;
  }

  lemma DataShape(s: Sender, text: string)
    requires Shape(s) && s.field in s.running
    ensures Shape(Next(s, FileData(text))) && 0 <= s.field < |s.items| && s.items[s.field].File?
  {
  }

  lemma DataWrote(s: Sender, text: string)
    requires Shape(s) && s.field in s.running && Wrote(s, s.field + 1)
    ensures Wrote(Next(s, FileData(text)), s.field + 1)
  {
    hide Written;
    DataWritten(s.items, s.data, s.field, text);
  }

  lemma DataSilent(s: Sender, text: string)
    requires Shape(s) && s.field in s.running && Silent(s, s.field + 1)
    ensures Silent(Next(s, FileData(text)), s.field + 1)
  {
  }

  lemma WrittenMore(items: seq<Item>, data: seq<seq<string>>, i: nat)
    requires i < |items| == |data|
    ensures Written(items, data, i + 1) == Written(items, data, i) + Render(i, items[i], data[i])
  {
  }

  lemma RenderMore(i: nat, item: Item, texts: seq<string>, text: string)
    requires item.File?
    ensures Render(i, item, texts + [text]) == Render(i, item, texts) + [Data(i, text)]
  {
    hide DataParts;
    DataPartsSnoc(i, texts, text);
    assert [FileHead(i, item.name)] + (DataParts(i, texts) + [Data(i, text)])
        == [FileHead(i, item.name)] + DataParts(i, texts) + [Data(i, text)];
  }

  lemma {:induction false} DataWritten(items: seq<Item>, data: seq<seq<string>>, i: nat, text: string)
    requires i < |items| == |data| && items[i].File?
    ensures var more := data[i := data[i] + [text]];
      Written(items, more, i + 1) == Written(items, data, i + 1) + [Data(i, text)]
  {
    hide Written, Render;
    var more := data[i := data[i] + [text]];
    WrittenSame(items, data, more, i);
    WrittenMore(items, data, i);
    WrittenMore(items, more, i);
    RenderMore(i, items[i], data[i], text);
    SeqAssoc(Written(items, data, i), Render(i, items[i], data[i]), [Data(i, text)]);
  }

  lemma SeqAssoc(a: seq<Part>, b: seq<Part>, c: seq<Part>)
    ensures a + b + c == a + (b + c)
  {
  }

  lemma {:induction false} DataPartsSnoc(i: nat, texts: seq<string>, text: string)
    ensures DataParts(i, texts + [text]) == DataParts(i, texts) + [Data(i, text)]
  {
    assert (texts + [text])[..|texts + [text]| - 1] == texts;
  }

  lemma FinishKeeps(s: Sender, n: nat)
    requires Shape(s) && Account(s, n) && s.active
    ensures Shape(Finish(s)) && Account(Finish(s), n) && Finish(s).items == s.items
  {
    hide Written;
  }

  lemma StepKeeps(s: Sender, step: Step)
    requires Inv(s) && Enabled(s, step)
    ensures Inv(Next(s, step)) && Next(s, step).items == s.items
  {
    var n: nat :| Account(s, n);
    hide Written, SendForm, Finish;
    match step
    case FileData(text) => DataKeeps(s, text, n);
    case FileDone => SendFormKeeps(s.(field := s.field + 1, running := s.running - {s.field}));
    case FileFailed => FinishKeeps(s, n);
    case Ended => FinishKeeps(s, n);
  }

  lemma {:induction false} RunKeeps(items: seq<Item>, steps: seq<Step>)
    requires Legal(Begin(items), steps)
    ensures Inv(Run(Begin(items), steps)) && Run(Begin(items), steps).items == items
  {
    BeginKeeps(items);
    if steps != [] {
      RunKeeps(items, steps[..|steps| - 1]);
      StepKeeps(Run(Begin(items), steps[..|steps| - 1]), steps[|steps| - 1]);
    }
  }

  // ---------------------------------------------------------------- what holds over every run

  /** The first file at or after position `i`, or the number of items. */
  function NextFile(items: seq<Item>, i: nat): (j: nat)
    requires i <= |items|
    ensures i <= j <= |items|
    ensures forall k :: i <= k < j ==> !items[k].File?
    ensures j < |items| ==> items[j].File?
    decreases |items| - i
  {
    if i == |items| || items[i].File? then i else NextFile(items, i + 1)
  }

  /** The file that is sent after `n` others, or the number of items. */
  function FileAt(items: seq<Item>, n: nat): (i: nat)
    ensures i <= |items|
  {
    if n == 0 then NextFile(items, 0)
    else if FileAt(items, n - 1) == |items| then |items|
    else NextFile(items, FileAt(items, n - 1) + 1)
  }

  /** How many files have come to their end. */
  function Dones(steps: seq<Step>): nat {
    if steps == [] then 0 else Dones(steps[..|steps| - 1]) + if steps[|steps| - 1].FileDone? then 1 else 0
  }

  /** For each item, what the steps have given while it was pending. */
  function Given(items: seq<Item>, steps: seq<Step>): (data: seq<seq<string>>)
    ensures |data| == |items|
  {
    if steps == [] then seq(|items|, i => [])
    else
      var before := Given(items, steps[..|steps| - 1]);
      var i := FileAt(items, Dones(steps[..|steps| - 1]));
      match steps[|steps| - 1]
      case FileData(text) => if i < |items| then before[i := before[i] + [text]] else before
      case _ => before
  }

  /** The request has ended, by itself or because a file has failed. */
  predicate EndedBy(steps: seq<Step>) {
    exists i :: 0 <= i < |steps| && (steps[i].FileFailed? || steps[i].Ended?)
  }

  /** File `i` is pending, if there is one and the request goes on; otherwise all has been sent, or `i` has been
      stopped. */
  ghost predicate PendingIs(s: Sender, data: seq<seq<string>>, i: nat, over: bool) {
    && s.data == data && s.active == !over && i <= |s.items| && s.sent == (i == |s.items|)
    && s.field == (if i < |s.items| && !over then i else -1)
    && (over && i < |s.items| ==> s.stopped == [i])
  }

  /** The steps say which file is pending and whether all has been sent. */
  ghost predicate InStep(s: Sender, items: seq<Item>, steps: seq<Step>) {
    s.items == items && PendingIs(s, Given(items, steps), FileAt(items, Dones(steps)), EndedBy(steps))
  }

  lemma {:induction false} SendFormGoesTo(s: Sender)
    requires 0 <= s.field <= |s.items| && !s.sent
    ensures var d := SendForm(s);
      var i := NextFile(s.items, s.field);
      && d.data == s.data && d.active == s.active && d.items == s.items && d.stopped == s.stopped
      && d.field == (if i < |s.items| then i else -1) && d.sent == (i == |s.items|)
    decreases |s.items| - s.field
  {
    if s.field < |s.items| {
      var (t, done) := StartItem(s, s.field);
      if done { SendFormGoesTo(t.(field := s.field + 1)); }
    }
  }

  lemma {:induction false} GivenSnoc(items: seq<Item>, steps: seq<Step>, step: Step)
    ensures var all := steps + [step];
      && Dones(all) == Dones(steps) + (if step.FileDone? then 1 else 0)
      && Given(items, all) ==
           (var i := FileAt(items, Dones(steps));
            if step.FileData? && i < |items| then Given(items, steps)[i := Given(items, steps)[i] + [step.text]]
            else Given(items, steps))
      && (EndedBy(all) <==> EndedBy(steps) || step.FileFailed? || step.Ended?)
  {
    var all := steps + [step];
    assert all[..|all| - 1] == steps && all[|all| - 1] == step;
    hide FileAt;
  }

  lemma {:induction false} StepPending(s: Sender, data: seq<seq<string>>, i: nat, step: Step)
    requires PendingIs(s, data, i, false) && Shape(s) && Enabled(s, step)
    ensures var d := Next(s, step);
      && d.items == s.items
      && match step
         case FileData(text) => i < |data| && PendingIs(d, data[i := data[i] + [text]], i, false)
         case FileDone => i < |s.items| && PendingIs(d, data, NextFile(s.items, i + 1), false)
         case _ => PendingIs(d, data, i, true)
  {
    hide SendForm, NextFile;
    if step.FileDone? { SendFormGoesTo(s.(field := s.field + 1, running := s.running - {s.field})); }
  }

  lemma {:induction false} StepInStep(s: Sender, items: seq<Item>, steps: seq<Step>, step: Step)
    requires InStep(s, items, steps) && Shape(s) && Enabled(s, step)
    ensures InStep(Next(s, step), items, steps + [step])
  {
    GivenSnoc(items, steps, step);
    FileAfter(items, Dones(steps));
    assert s.active;
    hide SendForm, Given, FileAt, Dones, EndedBy, NextFile, Shape, Next;
    StepPending(s, Given(items, steps), FileAt(items, Dones(steps)), step);
    hide PendingIs;
  }

  lemma {:induction false} FileAfter(items: seq<Item>, n: nat)
    ensures FileAt(items, n) < |items| ==> FileAt(items, n + 1) == NextFile(items, FileAt(items, n) + 1)
  {
  }

  lemma {:induction false} StaysInStep(items: seq<Item>, steps: seq<Step>)
    requires Legal(Begin(items), steps)
    ensures InStep(Run(Begin(items), steps), items, steps)
  {
    if steps == [] {
      SendFormGoesTo(Sender(items, 0, false, false, true, {}, [], seq(|items|, i => []), []));
    } else {
      var before := steps[..|steps| - 1];
      hide InStep, Shape, Account, Begin, Next, Enabled;
      StaysInStep(items, before);
      RunKeeps(items, before);
      StepInStep(Run(Begin(items), before), items, before, steps[|steps| - 1]);
      assert before + [steps[|steps| - 1]] == steps;
    }
  }

  /** Over every run of file data, completions, errors and other ends: what has been written is the
      first items of the form, in order, each with all that was given for it while it was pending and nothing
      in between, and the trailer once, after the last item, if and only if all files have come to their end.
      The pending item is the file after those; it is the only one that is read, and ending the request early
      stops exactly that one. */
  lemma {:induction false} FormInOrder(items: seq<Item>, steps: seq<Step>)
    requires Legal(Begin(items), steps)
    ensures var s := Run(Begin(items), steps);
      var i := FileAt(items, Dones(steps));
      && s.out == (if i == |items| then Written(items, Given(items, steps), |items|) + [Trailer]
                   else Written(items, Given(items, steps), i + 1))
      && (s.sent <==> i == |items|)
      && (s.active && i < |items| ==> s.field == i && s.running == {i})
      && (!s.active || i == |items| ==> s.field == -1 && s.running == {})
      && (s.active <==> !EndedBy(steps))
      && s.stopped == (if !s.active && i < |items| then [i] else [])
  {
    RunKeeps(items, steps);
    StaysInStep(items, steps);
    var s := Run(Begin(items), steps);
    var n: nat :| Account(s, n);
    hide Written, FileAt, Given, EndedBy, Silent, Dones;
  }

  lemma {:induction false} SendFormSent(s: Sender)
    requires 0 <= s.field <= |s.items| && !s.sent
    ensures SendForm(s).sent <==> forall i :: s.field <= i < |s.items| ==> !s.items[i].File?
    decreases |s.items| - s.field
  {
    if s.field < |s.items| {
      var (t, done) := StartItem(s, s.field);
      if done { SendFormSent(t.(field := s.field + 1)); }
    }
  }

  /** A form is sent at once if and only if it has no file. */
  lemma SentAtOnceIff(items: seq<Item>)
    ensures Begin(items).sent <==> forall i :: 0 <= i < |items| ==> !items[i].File?
  {
    SendFormSent(Sender(items, 0, false, false, true, {}, [], seq(|items|, i => []), []));
  }

  // ---------------------------------------------------------------- the class

  /** The part of Client that streams the form of its request. */
  class FormSender {
    const items: seq<Item>
    var field: int
    var sent: bool
    var reading: bool  // read_start has been called for this form
    var active: bool
    var running: set<nat>
    var out: seq<Part>
    // history
    ghost var data: seq<seq<string>>
    ghost var stopped: seq<nat>

    ghost function View(): Sender
      reads this
    {
      Sender(items, field, sent, reading, active, running, out, data, stopped)
    }

    constructor (items: seq<Item>)
      ensures View() == Begin(items)
    {
      this.items := items;
      field, sent, reading, active, running, out := 0, false, false, true, {}, [];
      data, stopped := seq(|items|, i => []), [];
      new;
      SendItems();
    }

    /** IFormItem::start. */
    method Start(i: nat) returns (done: bool)
      requires i < |items|
      modifies this`running, this`out
      ensures (View(), done) == StartItem(old(View()), i)
    {
      match items[i]
      case Field(name, content) =>
        out := out + [Plain(i, name, content)];
        return true;
      case Embedded(name, content) =>
        out := out + [FileHead(i, name)];
        out := out + [Data(i, content)];
        assert out == old(out) + [FileHead(i, name), Data(i, content)];
        return true;
      case File(name) =>
        running := running + {i};
        out := out + [FileHead(i, name)];
        return false;
    }

    /** Client::send_form. */
    method SendItems()
      requires 0 <= field <= |items|
      modifies this`field, this`running, this`out, this`sent, this`reading
      ensures View() == SendForm(old(View()))
    {
      while field < |items|
        invariant 0 <= field <= |items|
        invariant SendForm(View()) == SendForm(old(View()))
        decreases |items| - field
      {
        ghost var s := View();
        var done := Start(field);
        if !done { break; }
        assert SendForm(s) == SendForm(View().(field := field + 1));
        field := field + 1;
      }
      if field == |items| {
        field := -1;
        out := out + [Trailer];
        sent := true;
        reading := true;
      }
    }

    /** A streamer writes through FormFile::ClientOutput. */
    method WriteData(text: string)
      requires 0 <= field < |items| && |data| == |items|
      modifies this`out, this`data
      ensures View() == Next(old(View()), FileData(text))
    {
      out := out + [Data(field, text)];
      data := data[field := data[field] + [text]];
    }

    /** Client::form_file_complete. */
    method FormFileComplete(failed: bool)
      requires 0 <= field < |items| && field in running
      modifies this
      ensures View() == Next(old(View()), if failed then FileFailed else FileDone)
    {
      if failed {
        FinishRequest();
      } else {
        running := running - {field};
        field := field + 1;
        SendItems();
      }
    }

    /** The end of Client::finish_request. */
    method FinishRequest()
      modifies this
      ensures View() == Finish(old(View()))
    {
      active := false;
      if field >= 0 {
        if field in running {
          running := running - {field};
          stopped := stopped + [field];
        }
        field := -1;
      }
    }
  }
}
