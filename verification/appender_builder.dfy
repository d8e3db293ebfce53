/** LogDNAAppenderBuilder: configuration fields with their defaults, one
    setter per field, and `build`, which picks the appender class. */
module AppenderBuilder {
  import opened Wrappers
  import opened Events
  import opened Batching
  import SimpleAppender
  import ScheduledAsyncAppender

  /** The builder's fields. `appName`, `token` and `layout` are None (Java
      null) until set; `tags` is None while no array is given. */
  datatype Builder = Builder(
    name: string,
    layout: Option<LayoutName>,
    hostname: string,
    appName: Option<string>,
    token: Option<string>,
    stackTrace: bool,
    supportMdc: bool,
    tags: Option<seq<string>>,
    async: bool,
    minimalLogLevel: Level)

  const DefaultName := "LogDNAAppender"

  /** The constructor; `localHostName` is what the local host lookup
      answers, None when it throws UnknownHostException. */
  function NewBuilder(localHostName: Option<string>): (b: Builder)
    ensures b.name == "LogDNAAppender"
    ensures b.async == false
    ensures b.minimalLogLevel == INFO
    ensures localHostName.Some? ==> b.hostname == localHostName.value
    ensures localHostName.None? ==> b.hostname == "localhost"
    ensures b.layout.None? && b.appName.None? && b.token.None? && b.tags.None?
    ensures !b.stackTrace && !b.supportMdc
  {
    Builder(DefaultName, None, localHostName.GetOr("localhost"), None, None, false, false, None, false, INFO)
  }

  /** One call of a setter, with its argument */
  datatype Setting =
    | Name(name: string)
    | MinimalLogLevel(level: Level)
    | Layout(layout: LayoutName)
    | Hostname(hostname: string)
    | AppName(appName: string)
    | Token(token: string)
    | LogStackTrace(stackTrace: bool)
    | SupportMdc(supportMdc: bool)
    | Tags(tags: Option<seq<string>>)
    | Async(async: bool)

  /** The builder fields, by name */
  datatype Field = NameField | LevelField | LayoutField | HostnameField | AppNameField
                 | TokenField | StackTraceField | SupportMdcField | TagsField | AsyncField

  /** The field a setter writes */
  function FieldOf(s: Setting): Field
  {
    match s
    case Name(_) => NameField
    case MinimalLogLevel(_) => LevelField
    case Layout(_) => LayoutField
    case Hostname(_) => HostnameField
    case AppName(_) => AppNameField
    case Token(_) => TokenField
    case LogStackTrace(_) => StackTraceField
    case SupportMdc(_) => SupportMdcField
    case Tags(_) => TagsField
    case Async(_) => AsyncField
  }

  /** The builder holds the setter's argument in the setter's field */
  predicate Holds(b: Builder, s: Setting)
  {
    match s
    case Name(v) => b.name == v
    case MinimalLogLevel(v) => b.minimalLogLevel == v
    case Layout(v) => b.layout == Some(v)
    case Hostname(v) => b.hostname == v
    case AppName(v) => b.appName == Some(v)
    case Token(v) => b.token == Some(v)
    case LogStackTrace(v) => b.stackTrace == v
    case SupportMdc(v) => b.supportMdc == v
    case Tags(v) => b.tags == v
    case Async(v) => b.async == v
  }

  /** Two builders agree on every field but `f` */
  predicate AgreeExcept(b: Builder, b': Builder, f: Field)
  {
    && (f == NameField || b.name == b'.name)
    && (f == LevelField || b.minimalLogLevel == b'.minimalLogLevel)
    && (f == LayoutField || b.layout == b'.layout)
    && (f == HostnameField || b.hostname == b'.hostname)
    && (f == AppNameField || b.appName == b'.appName)
    && (f == TokenField || b.token == b'.token)
    && (f == StackTraceField || b.stackTrace == b'.stackTrace)
    && (f == SupportMdcField || b.supportMdc == b'.supportMdc)
    && (f == TagsField || b.tags == b'.tags)
    && (f == AsyncField || b.async == b'.async)
  }

  /** Calling a setter; the Java setter returns the builder itself, here the
      updated value is the result. */
  function Set(b: Builder, s: Setting): (r: Builder)
    ensures Holds(r, s)
    ensures AgreeExcept(b, r, FieldOf(s))
  {
    match s
    case Name(v) => b.(name := v)
    case MinimalLogLevel(v) => b.(minimalLogLevel := v)
    case Layout(v) => b.(layout := Some(v))
    case Hostname(v) => b.(hostname := v)
    case AppName(v) => b.(appName := Some(v))
    case Token(v) => b.(token := Some(v))
    case LogStackTrace(v) => b.(stackTrace := v)
    case SupportMdc(v) => b.(supportMdc := v)
    case Tags(v) => b.(tags := v)
    case Async(v) => b.(async := v)
  }

  /** Setting a field twice keeps the later value */
  lemma LastWriteWins(b: Builder, s: Setting, t: Setting)
    requires FieldOf(s) == FieldOf(t)
    ensures Set(Set(b, s), t) == Set(b, t)
  {
  }

  /** Setters of different fields do not interfere: their order is immaterial */
  lemma SettersCommute(b: Builder, s: Setting, t: Setting)
    requires FieldOf(s) != FieldOf(t)
    ensures Set(Set(b, s), t) == Set(Set(b, t), s)
  {
  }

  /** The object `build()` returns */
  datatype Appender =
    | Simple(config: SimpleAppender.Config)
    | ScheduledAsync(state: ScheduledAsyncAppender.State)

  /** The shared settings `build()` passes to either constructor */
  function SettingsOf(b: Builder): SimpleAppender.Settings
  {
    SimpleAppender.NewSettings(b.name, b.layout, b.hostname, b.appName, b.token, b.stackTrace, b.supportMdc, b.tags)
  }

  /** `build()`: the scheduled asynchronous appender exactly when `async` is
      set, otherwise the simple appender with the minimal level. */
  function Build(b: Builder): (a: Appender)
    ensures a.ScheduledAsync? <==> b.async
    ensures a.Simple? ==> a.config.minimalLevel == b.minimalLogLevel
    ensures a.ScheduledAsync? ==> a.state.batcher == Batcher([], Running)
    ensures var s := if a.Simple? then a.config.settings else a.state.settings;
      && s.name == b.name && s.layout == b.layout && s.hostname == b.hostname
      && s.appName == b.appName && s.token == b.token
      && s.stackTrace == b.stackTrace && s.supportMdc == b.supportMdc
      && s.tags == SimpleAppender.JoinTags(b.tags)
  {
    if b.async then ScheduledAsync(ScheduledAsyncAppender.New(SettingsOf(b)))
    else Simple(SimpleAppender.Config(SettingsOf(b), b.minimalLogLevel))
  }
}
