/** surface/xgui.py and surface/launch.py: the checks the surface launcher
    makes before it opens its window. It validates the camera ports and
    builds one video pipeline per camera, picks the central widget, and
    filters Qt's log messages. */
module Launcher {
  import opened Errors
  import Text
  import Decimal

  /** `_check_valid_port_num(p)`: a TCP/UDP port number, 1 to 65535. */
  predicate ValidPortNum(p: int)
  {
    1 <= p <= 65535
  }

  const PipelinePrefix: string := "gst-pipeline: udpsrc port="
  const PipelineSuffix: string :=
    " ! application/x-rtp ! rtpjitterbuffer ! rtph264depay ! avdec_h264 ! videoconvert ! xvimagesink name=\"qtvideosink\""

  /** `PORT_NUM_TO_GST_PIPELINE_COMMAND(p)`: the GStreamer pipeline that
      receives port `p`'s H.264 stream over UDP. */
  function PipelineCommand(port: int): string
  {
    PipelinePrefix + Decimal.IntToString(port) + PipelineSuffix
  }

  /** The port a pipeline command listens on, read back from its text. */
  function PipelinePort(cmd: string): Option<int>
  {
    if |cmd| >= |PipelinePrefix| + |PipelineSuffix|
       && cmd[..|PipelinePrefix|] == PipelinePrefix
       && cmd[|cmd| - |PipelineSuffix|..] == PipelineSuffix
    then Decimal.ParseInt(cmd[|PipelinePrefix|..|cmd| - |PipelineSuffix|])
    else None
  }

  /** Every pipeline command names the port it was built for. */
  lemma PipelinePortRoundTrip(port: int)
    ensures PipelinePort(PipelineCommand(port)) == Some(port)
  {
    var d := Decimal.IntToString(port);
    var s := PipelineCommand(port);
    assert s[..|PipelinePrefix|] == PipelinePrefix;
    assert s[|s| - |PipelineSuffix|..] == PipelineSuffix;
    assert s[|PipelinePrefix|..|s| - |PipelineSuffix|] == d;
    Decimal.ParseIntToString(port);
  }

  /** Distinct ports give distinct pipelines. */
  lemma PipelineCommandInjective(p: int, q: int)
    requires PipelineCommand(p) == PipelineCommand(q)
    ensures p == q
  {
    PipelinePortRoundTrip(p);
    PipelinePortRoundTrip(q);
  }

  /** `get_qurls_or_exit(lowest, num_cameras)`: with the lowest and highest
      port valid, one pipeline per port from `lowest` upward; otherwise
      `sys.exit(1)`. */
  function GetQurlsOrExit(lowest: int, numCameras: int): (r: Result<seq<string>>)
    ensures r.Ok? <==> ValidPortNum(lowest) && ValidPortNum(lowest + numCameras - 1)
    ensures r.Err? ==> r.error == SystemExit(1)
    ensures r.Ok? ==> (|r.value| == (if numCameras < 0 then 0 else numCameras)
      && forall i :: 0 <= i < |r.value| ==> r.value[i] == PipelineCommand(lowest + i))
  {
    var highest := lowest + numCameras - 1;
    if ValidPortNum(lowest) && ValidPortNum(highest) then
      Ok(seq(if highest + 1 < lowest then 0 else highest + 1 - lowest, i => PipelineCommand(lowest + i)))
    else Err(SystemExit(1))
  }

  /** Every camera gets its own valid port: the pipelines read back as
      `lowest`, `lowest + 1`, ..., all between 1 and 65535, and no two are equal. */
  lemma QurlPorts(lowest: int, numCameras: int)
    requires GetQurlsOrExit(lowest, numCameras).Ok?
    ensures var qs := GetQurlsOrExit(lowest, numCameras).value;
      (forall i :: 0 <= i < |qs| ==> PipelinePort(qs[i]) == Some(lowest + i) && ValidPortNum(lowest + i))
      && (forall i, j :: 0 <= i < j < |qs| ==> qs[i] != qs[j])
  {
    var qs := GetQurlsOrExit(lowest, numCameras).value;
    forall i | 0 <= i < |qs|
      ensures PipelinePort(qs[i]) == Some(lowest + i) && ValidPortNum(lowest + i)
    {
      assert qs[i] == PipelineCommand(lowest + i);
      PipelinePortRoundTrip(lowest + i);
    }
    forall i, j | 0 <= i < j < |qs|
      ensures qs[i] != qs[j]
    {
      assert PipelinePort(qs[i]) != PipelinePort(qs[j]);
    }
  }

  /** Qt's message types. Qt defines `QtSystemMsg` as the same value as
      `QtCriticalMsg`; it is kept as a separate name here so that the mapping
      can say what happens to it. */
  datatype QtMsgType = QtCriticalMsg | QtDebugMsg | QtFatalMsg | QtInfoMsg | QtSystemMsg | QtWarningMsg

  /** The `logging` functions the handler calls. */
  datatype LogLevel = LogDebug | LogInfo | LogWarning | LogCritical

  /** The numeric level of each `logging` function. */
  function Severity(l: LogLevel): nat
  {
    match l
    case LogDebug => 10
    case LogInfo => 20
    case LogWarning => 30
    case LogCritical => 50
  }

  /** `get_logger_func(msg_type)`. The `match` compares values in order, and
      a system message equals a critical one, so the critical case takes it
      and the system case is never reached. */
  function LoggerFunc(t: QtMsgType): (l: LogLevel)
    ensures l == LogCritical <==> t in {QtCriticalMsg, QtFatalMsg, QtSystemMsg}
    ensures l == LogInfo <==> t == QtInfoMsg
    ensures l == LogDebug <==> t == QtDebugMsg
    ensures l == LogWarning <==> t == QtWarningMsg
  {
    match t
    case QtCriticalMsg | QtSystemMsg => LogCritical
    case QtDebugMsg => LogDebug
    case QtFatalMsg => LogCritical
    case QtInfoMsg => LogInfo
    case QtWarningMsg => LogWarning
  }

  /** Qt's own order of severity is kept: a more severe type never logs at a
      lower level. */
  lemma LoggerFuncMonotone()
    ensures Severity(LoggerFunc(QtDebugMsg)) < Severity(LoggerFunc(QtInfoMsg))
    ensures Severity(LoggerFunc(QtInfoMsg)) < Severity(LoggerFunc(QtWarningMsg))
    ensures Severity(LoggerFunc(QtWarningMsg)) < Severity(LoggerFunc(QtCriticalMsg))
    ensures Severity(LoggerFunc(QtCriticalMsg)) == Severity(LoggerFunc(QtFatalMsg))
  {
  }

  /** The handler `get_surpressed_message_handler` returns. */
  datatype Handler = Checked(suppress: seq<string>) | Unchecked

  /** `get_surpressed_message_handler(msgs)`: the checking handler when there
      is anything to suppress, the plain one otherwise. */
  function GetSurpressedMessageHandler(msgs: seq<string>): (h: Handler)
    ensures h.Unchecked? <==> msgs == []
    ensures h.Checked? ==> h.suppress == msgs
  {
    if |msgs| > 0 then Checked(msgs) else Unchecked
  }

  /** What a handler logs for a message: nothing, or the message at its level. */
  function Handle(h: Handler, t: QtMsgType, msg: string): Option<(LogLevel, string)>
  {
    match h
    case Checked(s) => if msg in s then None else Some((LoggerFunc(t), msg))
    case Unchecked => Some((LoggerFunc(t), msg))
  }

  /** Whichever handler is chosen, exactly the listed messages are dropped and
      every other one is logged unchanged at its type's level. */
  lemma HandlerDropsExactlyListed(msgs: seq<string>, t: QtMsgType, msg: string)
    ensures Handle(GetSurpressedMessageHandler(msgs), t, msg) ==
      if msg in msgs then None else Some((LoggerFunc(t), msg))
  {
  }

  /** `get_messages_to_surpress(show)`, with `lines` the lines of the
      suppression file as iterating over it yields them. */
  function GetMessagesToSurpress(show: bool, lines: seq<string>): (r: seq<string>)
    ensures show ==> r == []
    ensures !show ==> |r| == |lines| && forall i :: 0 <= i < |lines| ==> r[i] == Text.Strip(lines[i])
  {
    if show then [] else StripAll(lines)
  }

  function StripAll(lines: seq<string>): (r: seq<string>)
    ensures |r| == |lines| && forall i :: 0 <= i < |lines| ==> r[i] == Text.Strip(lines[i])
  {
    if lines == [] then [] else StripAll(lines[..|lines| - 1]) + [Text.Strip(lines[|lines| - 1])]
  }

  /** The list is already stripped: reading it as a file again gives it back. */
  lemma GetMessagesToSurpressIdempotent(lines: seq<string>)
    ensures GetMessagesToSurpress(false, GetMessagesToSurpress(false, lines)) == GetMessagesToSurpress(false, lines)
  {
    var once := StripAll(lines);
    var twice := StripAll(once);
    forall i | 0 <= i < |once|
      ensures twice[i] == once[i]
    {
      Text.StripUnchanged(once[i]);
    }
    assert twice == once;
  }

  /** What a name is bound to in the surface-central widget module. */
  datatype Binding = WidgetClass | OtherClass | WidgetInstance

  /** What `get_surface_central_if_can` returns: a class, or `False`. */
  datatype Choice = Chosen(name: string) | NoWidget

  const DefaultWidget: string := "SurfaceCentralWidget"

  /** launch.py's `get_surface_central_if_can(name)`: no name (None or empty)
      picks the default widget; otherwise whatever the module binds to that
      name, or `False` if it binds nothing. `names` stands for the widget
      module's names, which `class_for_name` looks up. */
  function GetSurfaceCentralIfCan(maybeName: Option<string>, names: map<string, Binding>): (c: Choice)
    ensures maybeName.None? || maybeName == Some("") ==> c == Chosen(DefaultWidget)
    ensures maybeName.Some? && maybeName.value != "" ==>
      c == if maybeName.value in names then Chosen(maybeName.value) else NoWidget
  {
    match maybeName
    case None => Chosen(DefaultWidget)
    case Some(name) =>
      if name == "" then Chosen(DefaultWidget)
      else if name in names then Chosen(name) else NoWidget
  }

  /** xgui.py's version as written: it keeps a found binding only when
      `isinstance(binding, QWidget)`, which a class never is. */
  function GetSurfaceCentralIfCanXgui(maybeName: Option<string>, names: map<string, Binding>): Choice
  {
    match maybeName
    case None => Chosen(DefaultWidget)
    case Some(name) =>
      if name == "" then Chosen(DefaultWidget)
      else if name in names && names[name] == WidgetInstance then Chosen(name) else NoWidget
  }

  /** As written, naming the default widget class itself is refused. */
  lemma XguiRefusesWidgetClass(names: map<string, Binding>)
    requires DefaultWidget in names && names[DefaultWidget] == WidgetClass
    ensures GetSurfaceCentralIfCanXgui(Some(DefaultWidget), names) == NoWidget
  {
  }

  /** xgui.py's version as its test expects (`issubclass` in place of
      `isinstance`): a named widget class is chosen. */
  function GetSurfaceCentralIfCanXguiCorrected(maybeName: Option<string>, names: map<string, Binding>): (c: Choice)
    ensures maybeName.None? || maybeName == Some("") ==> c == Chosen(DefaultWidget)
    ensures maybeName.Some? && maybeName.value != "" ==>
      (c.Chosen? <==> maybeName.value in names && names[maybeName.value] == WidgetClass)
    ensures c.Chosen? && maybeName.Some? && maybeName.value != "" ==> c == Chosen(maybeName.value)
  {
    match maybeName
    case None => Chosen(DefaultWidget)
    case Some(name) =>
      if name == "" then Chosen(DefaultWidget)
      else if name in names && names[name] == WidgetClass then Chosen(name) else NoWidget
  }

  /** Corrected, the xgui lookup agrees with launch.py's on every module that
      binds only widget classes. */
  lemma XguiCorrectedAgreesWithLaunch(maybeName: Option<string>, names: map<string, Binding>)
    requires forall n :: n in names ==> names[n] == WidgetClass
    ensures GetSurfaceCentralIfCanXguiCorrected(maybeName, names) == GetSurfaceCentralIfCan(maybeName, names)
  {
  }

  /** xgui.py's `main` up to opening the window, as written: a bad port
      range or a refused widget exits with status 1. */
  function XguiMainStart(lowest: int, numCameras: int, widget: Option<string>, names: map<string, Binding>): (o: Outcome)
    ensures o.Fail? ==> o.error == SystemExit(1)
    ensures o == Pass <==> GetQurlsOrExit(lowest, numCameras).Ok? && GetSurfaceCentralIfCanXgui(widget, names).Chosen?
  {
    if GetQurlsOrExit(lowest, numCameras).Err? then Fail(SystemExit(1))
    else if GetSurfaceCentralIfCanXgui(widget, names).NoWidget? then Fail(SystemExit(1))
    else Pass
  }

  /** As written, naming any widget class exits with status 1, even with
      valid ports; only the default (no name) starts the window. */
  lemma XguiMainRefusesNamedClass(lowest: int, numCameras: int, name: string, names: map<string, Binding>)
    requires name != "" && name in names && names[name] == WidgetClass
    ensures XguiMainStart(lowest, numCameras, Some(name), names) == Fail(SystemExit(1))
  {
  }

  /** xgui.py's `main` with the lookup corrected. */
  function XguiMainStartCorrected(lowest: int, numCameras: int, widget: Option<string>, names: map<string, Binding>): (o: Outcome)
    ensures o.Fail? ==> o.error == SystemExit(1)
    ensures o == Pass <==> GetQurlsOrExit(lowest, numCameras).Ok? && GetSurfaceCentralIfCanXguiCorrected(widget, names).Chosen?
  {
    if GetQurlsOrExit(lowest, numCameras).Err? then Fail(SystemExit(1))
    else if GetSurfaceCentralIfCanXguiCorrected(widget, names).NoWidget? then Fail(SystemExit(1))
    else Pass
  }

  /** Corrected, naming the default widget class starts the window whenever
      the ports are valid. */
  lemma XguiCorrectedStartsDefaultByName(lowest: int, numCameras: int, names: map<string, Binding>)
    requires ValidPortNum(lowest) && ValidPortNum(lowest + numCameras - 1)
    requires DefaultWidget in names && names[DefaultWidget] == WidgetClass
    ensures XguiMainStartCorrected(lowest, numCameras, Some(DefaultWidget), names) == Pass
  {
  }

  /** The correction changes `main` exactly for a named widget class with
      valid ports: as written it exits, corrected it starts. */
  lemma XguiCorrectionOnlyFixesClasses(lowest: int, numCameras: int, widget: Option<string>, names: map<string, Binding>)
    requires forall n :: n in names ==> names[n] != WidgetInstance
    ensures XguiMainStart(lowest, numCameras, widget, names) != XguiMainStartCorrected(lowest, numCameras, widget, names) <==>
      GetQurlsOrExit(lowest, numCameras).Ok? && widget.Some? && widget.value != ""
      && widget.value in names && names[widget.value] == WidgetClass
  {
  }

  /** launch.py's `main` up to opening the window, as written: a bad port
      range exits with status 1, and a failed widget lookup reaches the
      undefined name `widget_name` in its error message. */
  function MainStart(lowest: int, numCameras: int, widget: Option<string>, names: map<string, Binding>): (o: Outcome)
    ensures GetQurlsOrExit(lowest, numCameras).Err? ==> o == Fail(SystemExit(1))
    ensures o == Pass <==> GetQurlsOrExit(lowest, numCameras).Ok? && GetSurfaceCentralIfCan(widget, names).Chosen?
  {
    if GetQurlsOrExit(lowest, numCameras).Err? then Fail(SystemExit(1))
    else if GetSurfaceCentralIfCan(widget, names).NoWidget? then Fail(NameError)
    else Pass
  }

  /** An unknown widget name with valid ports ends in `NameError`, not the
      intended clean exit. */
  lemma MainUnknownWidgetNameError(lowest: int, numCameras: int, name: string, names: map<string, Binding>)
    requires ValidPortNum(lowest) && ValidPortNum(lowest + numCameras - 1)
    requires name != "" && name !in names
    ensures MainStart(lowest, numCameras, Some(name), names) == Fail(NameError)
  {
  }

  /** `main` as its message intends: the requested name is logged and the
      program exits with status 1. */
  function MainStartCorrected(lowest: int, numCameras: int, widget: Option<string>, names: map<string, Binding>): (o: Outcome)
    ensures o.Fail? ==> o.error == SystemExit(1)
    ensures o == Pass <==> GetQurlsOrExit(lowest, numCameras).Ok? && GetSurfaceCentralIfCan(widget, names).Chosen?
  {
    if GetQurlsOrExit(lowest, numCameras).Err? then Fail(SystemExit(1))
    else if GetSurfaceCentralIfCan(widget, names).NoWidget? then Fail(SystemExit(1))
    else Pass
  }

  /** Corrected, `main` differs from the code as written only where the
      widget lookup fails. */
  lemma MainCorrectedOnlyFixesLookup(lowest: int, numCameras: int, widget: Option<string>, names: map<string, Binding>)
    ensures MainStart(lowest, numCameras, widget, names) != MainStartCorrected(lowest, numCameras, widget, names) <==>
      GetQurlsOrExit(lowest, numCameras).Ok? && GetSurfaceCentralIfCan(widget, names).NoWidget?
  {
  }
}
