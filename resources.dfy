/** Resource instances (org.eigenbase.resource.Resources): typed handles on
    localized message templates. An instance binds a locale, the accessor
    method that identifies the resource, and the arguments of the call; it
    derives its bundle key from the method, reads its template from the
    locale's bundle, formats it, and (for the exception kind) builds an
    exception carrying the formatted text. */
module Resources {
  import opened Wrappers
  import opened Bundles

  // ----- Method declarations -----------------------------------------------

  /** A Java method name: an identifier, never empty. */
  type MethodName = s: string | |s| > 0 witness "m"

  /** An exception class named by an @ExceptionClass annotation.
      hasConstructor: it has a public (String, Throwable) constructor, so
      getConstructor succeeds; instantiable: newInstance on that
      constructor returns normally (the class is concrete, accessible, and
      the constructor does not throw). */
  datatype ExceptionClass = ExceptionClass(name: string, hasConstructor: bool, instantiable: bool)

  /** The declared return type of an accessor method: Inst, ExInst, or a type
      without the (Locale, Method, Object[]) constructor the handler needs. */
  datatype ReturnType = InstType | ExInstType | OtherType(typeName: string)

  /** A java.lang.reflect.Method of an accessor interface, with the
      annotations the mechanism reads. Two methods are the same method only
      when all these fields agree, so overloads of one name differ. */
  datatype Method = Method(
    declaringClass: string,
    name: MethodName,
    parameterTypes: seq<string>,
    returnType: ReturnType,
    resource: Option<string>,              // @Resource: an explicit bundle key
    baseMessage: Option<string>,           // @BaseMessage: the default-locale text
    exceptionClass: Option<ExceptionClass> // @ExceptionClass
  )

  /** An argument of an accessor call: null, a string or an integer. Other
      Java argument objects (doubles, dates, mutable objects) are not
      represented. */
  datatype Value = Null | Text(s: string) | Number(n: int)

  /** A thrown exception: its class, its message, and its cause (null cause
      is None). */
  datatype Throwable = Throwable(className: string, message: string, cause: Option<Throwable>)

  /** What an operation throws instead of returning. */
  datatype Error =
    | NoSuchConstructor(returnType: ReturnType) // the handler's getConstructor fails
    | NoBundle(locale: Locale)                  // no bundle is loaded for the locale
    | MissingResource(key: string)              // getString: MissingResourceException
    | IllegalArgument                           // MessageFormat rejects the template or an argument
    | NullPointer                               // ex() on a method without @ExceptionClass
    | InternalError                             // RuntimeException wrapping a reflective failure in ex()

  /** java.text.MessageFormat applied to (template, locale, arguments): the
      formatted text, or None when MessageFormat throws
      IllegalArgumentException. Its rules are not modelled: it is a
      parameter, and all that is relied on is that it is a function. */
  type Formatter = (string, Locale, seq<Value>) -> Option<string>

  // ----- Resource instances -------------------------------------------------

  /** Inst (Plain) or its exception-producing subclass ExInst (Ex). */
  datatype Kind = Plain | Ex

  /** A resource instance: immutable locale, accessor method (which
      identifies the resource) and arguments. */
  datatype Inst = Inst(kind: Kind, locale: Locale, accessor: Method, args: seq<Value>)

  /** The invocation handler of the proxy built by create: a call of accessor
      m with argument array args (None when Java passes null for a call
      without arguments), under the thread's current locale. The instance
      class is m's return type, found through its (Locale, Method, Object[])
      constructor. */
  function Invoke(current: Locale, m: Method, args: Option<seq<Value>>): (r: Result<Inst, Error>)
    ensures r.Ok? <==> m.returnType.InstType? || m.returnType.ExInstType?
    ensures r.Err? ==> r.error == NoSuchConstructor(m.returnType)
    ensures r.Ok? ==> && r.value.locale == current
                      && r.value.accessor == m
                      && r.value.args == (if args.Some? then args.value else [])
                      && (r.value.kind == Ex <==> m.returnType.ExInstType?)
  {
    var a := if args.Some? then args.value else [];
    match m.returnType
    case InstType => Ok(Inst(Plain, current, m, a))
    case ExInstType => Ok(Inst(Ex, current, m, a))
    case OtherType(_) => Err(NoSuchConstructor(m.returnType))
  }

  /** localize: the same resource and arguments under another locale; an
      ExInst stays an ExInst. */
  function Localize(i: Inst, locale: Locale): (r: Inst)
    ensures r.locale == locale
    ensures r.kind == i.kind && r.accessor == i.accessor && r.args == i.args
  {
    Inst(i.kind, locale, i.accessor, i.args)
  }

  /** validate: every check it is meant to make is still to be written; it
      reads the @BaseMessage annotation, ignores it, and answers true
      whatever fail says. */
  function Validate(i: Inst, fail: bool): (ok: bool)
    ensures ok
  {
    true
  }

  /** Character.toUpperCase, on ASCII: a lower-case letter becomes its
      upper-case letter, every other character is unchanged. */
  function UpperCase(c: char): (u: char)
    ensures 'a' <= c <= 'z' ==> u as int == c as int - 32
    ensures !('a' <= c <= 'z') ==> u == c
    ensures !('a' <= u <= 'z')
  {
    if 'a' <= c <= 'z' then (c as int - 32) as char else c
  }

  /** The key derived from a method name: its first character upper-cased,
      the rest unchanged ("tooManyArguments" gives "TooManyArguments"). */
  function Capitalize(name: MethodName): (k: string)
    ensures |k| == |name| && k[0] == UpperCase(name[0]) && k[1..] == name[1..]
  {
    [UpperCase(name[0])] + name[1..]
  }

  /** key: the @Resource value when the method has one, otherwise the
      capitalized method name. */
  function Key(m: Method): (k: string)
    ensures m.resource.Some? ==> k == m.resource.value
    ensures m.resource.None? ==> k == Capitalize(m.name)
  {
    match m.resource
    case Some(explicit) => explicit
    case None => Capitalize(m.name)
  }

  /** bundle: the resource bundle loaded for the instance's locale. */
  function BundleOf(i: Inst, bundles: map<Locale, Bundle>): (r: Result<Bundle, Error>)
    ensures r.Ok? <==> i.locale in bundles
    ensures r.Ok? ==> r.value == bundles[i.locale]
    ensures r.Err? ==> r.error == NoBundle(i.locale)
  {
    if i.locale in bundles then Ok(bundles[i.locale]) else Err(NoBundle(i.locale))
  }

  /** raw: the unformatted template stored under the instance's key in its
      locale's bundle; never a default text. */
  function Raw(i: Inst, bundles: map<Locale, Bundle>): (r: Result<string, Error>)
    ensures i.locale !in bundles ==> r == Err(NoBundle(i.locale))
    ensures i.locale in bundles ==>
      (r.Err? <==> forall j :: 0 <= j < |Chain(bundles[i.locale])| ==> Key(i.accessor) !in Chain(bundles[i.locale])[j])
    ensures i.locale in bundles && r.Err? ==> r.error == MissingResource(Key(i.accessor))
    ensures r.Ok? ==> exists j :: FoundAt(Chain(bundles[i.locale]), Key(i.accessor), j, r.value)
  {
    match BundleOf(i, bundles)
    case Err(e) => Err(e)
    case Ok(b) =>
      match GetString(b, Key(i.accessor))
      case Some(t) =>
        GetStringFoundAt(b, Key(i.accessor));
        Ok(t)
      case None => Err(MissingResource(Key(i.accessor)))
  }

  /** str: the template formatted with the instance's locale and arguments.
      A missing template propagates its error, a template MessageFormat
      rejects is IllegalArgument. */
  function Str(i: Inst, bundles: map<Locale, Bundle>, format: Formatter): (r: Result<string, Error>)
    ensures r.Ok? <==> Raw(i, bundles).Ok? && format(Raw(i, bundles).value, i.locale, i.args).Some?
    ensures r.Ok? ==> format(Raw(i, bundles).value, i.locale, i.args) == Some(r.value)
    ensures Raw(i, bundles).Err? ==> r.error == Raw(i, bundles).error
    ensures Raw(i, bundles).Ok? && r.Err? ==> r.error == IllegalArgument
  {
    match Raw(i, bundles)
    case Err(e) => Err(e)
    case Ok(template) =>
      match format(template, i.locale, i.args)
      case Some(text) => Ok(text)
      case None => Err(IllegalArgument)
  }

  /** getExceptionClass: the class named by @ExceptionClass; reading the
      annotation of a method that has none dereferences null. */
  function ExceptionClassOf(i: Inst): (r: Result<ExceptionClass, Error>)
    ensures r.Ok? <==> i.accessor.exceptionClass.Some?
    ensures r.Ok? ==> r.value == i.accessor.exceptionClass.value
    ensures r.Err? ==> r.error == NullPointer
  {
    match i.accessor.exceptionClass
    case Some(c) => Ok(c)
    case None => Err(NullPointer)
  }

  /** ex(cause): an exception of the declared class whose message is str()
      and whose cause is cause. The steps fail in the source's order: the
      annotation, the constructor lookup, the message, the instantiation. */
  function ExWithCause(i: Inst, bundles: map<Locale, Bundle>, format: Formatter, cause: Option<Throwable>): (r: Result<Throwable, Error>)
    requires i.kind == Ex
    ensures r.Ok? <==> && i.accessor.exceptionClass.Some?
                       && i.accessor.exceptionClass.value.hasConstructor
                       && i.accessor.exceptionClass.value.instantiable
                       && Str(i, bundles, format).Ok?
    ensures r.Ok? ==> r.value == Throwable(i.accessor.exceptionClass.value.name, Str(i, bundles, format).value, cause)
    ensures i.accessor.exceptionClass.None? ==> r == Err(NullPointer)
    ensures i.accessor.exceptionClass.Some? && !i.accessor.exceptionClass.value.hasConstructor ==> r == Err(InternalError)
    ensures i.accessor.exceptionClass.Some? && i.accessor.exceptionClass.value.hasConstructor && Str(i, bundles, format).Err? ==>
      r == Err(Str(i, bundles, format).error)
    ensures && i.accessor.exceptionClass.Some?
            && i.accessor.exceptionClass.value.hasConstructor
            && !i.accessor.exceptionClass.value.instantiable
            && Str(i, bundles, format).Ok? ==>
      r == Err(InternalError)
  {
    match ExceptionClassOf(i)
    case Err(e) => Err(e)
    case Ok(c) =>
      if !c.hasConstructor then Err(InternalError)
      else
        match Str(i, bundles, format)
        case Err(e) => Err(e)
        case Ok(text) =>
          if !c.instantiable then Err(InternalError)
          else Ok(Throwable(c.name, text, cause))
  }

  /** ex(): ex(cause) with a null cause. */
  function ExNoCause(i: Inst, bundles: map<Locale, Bundle>, format: Formatter): (r: Result<Throwable, Error>)
    requires i.kind == Ex
    ensures r == ExWithCause(i, bundles, format, None)
  {
    ExWithCause(i, bundles, format, None)
  }

  // ----- Laws ---------------------------------------------------------------

  /** An explicit @Resource key is the key, whatever the method is called. */
  lemma ExplicitKeyIgnoresName(m: Method, m': Method)
    requires m.resource.Some? && m'.resource == m.resource
    ensures Key(m) == Key(m') == m.resource.value
  {
  }

  /** A derived key is its own derived key: capitalizing is idempotent. */
  lemma CapitalizeIdempotent(name: MethodName)
    ensures Capitalize(Capitalize(name)) == Capitalize(name)
  {
  }

  /** Two names derive the same key exactly when they have the same length,
      agree after the first character, and their first characters upper-case
      alike: so "count" and "Count" share the key "Count". */
  lemma CapitalizeCollision(a: MethodName, b: MethodName)
    ensures Capitalize(a) == Capitalize(b) <==>
      |a| == |b| && UpperCase(a[0]) == UpperCase(b[0]) && a[1..] == b[1..]
  {
  }

  /** Overloads without @Resource share one bundle entry: the key reads only
      the name, so f(int) and f(String) render the same template even though
      they are distinct methods and give distinct instances. */
  lemma OverloadsShareKey(m: Method, m': Method)
    requires m.resource.None? && m'.resource.None? && m.name == m'.name
    ensures Key(m) == Key(m')
  {
  }

  /** Localizing twice is localizing once to the last locale, and localizing
      to the instance's own locale gives the instance back. */
  lemma LocalizeComposes(i: Inst, l1: Locale, l2: Locale)
    ensures Localize(Localize(i, l1), l2) == Localize(i, l2)
    ensures Localize(i, i.locale) == i
  {
  }

  /** Re-localizing an instance the proxy returned is the same as invoking
      the accessor under that locale in the first place. */
  lemma LocalizeInvoke(current: Locale, m: Method, args: Option<seq<Value>>, locale: Locale)
    requires Invoke(current, m, args).Ok?
    ensures Invoke(locale, m, args).Ok?
    ensures Localize(Invoke(current, m, args).value, locale) == Invoke(locale, m, args).value
  {
  }

  /** The proxy keeps methods apart by identity, not by name: distinct
      methods (overloads included) give distinct instances. A corollary of
      Invoke's contract (the instance records the method). */
  lemma InvokeDistinguishesMethods(current: Locale, m: Method, m': Method, args: Option<seq<Value>>)
    requires m != m' && Invoke(current, m, args).Ok? && Invoke(current, m', args).Ok?
    ensures Invoke(current, m, args).value != Invoke(current, m', args).value
  {
  }

  /** str() depends on nothing but raw(), the locale and the arguments: two
      instances that agree on those render alike, whatever the bundles,
      and rendering one instance twice gives the same text. */
  lemma StrDependsOnRawLocaleArgs(i: Inst, b: map<Locale, Bundle>, j: Inst, b': map<Locale, Bundle>, format: Formatter)
    requires Raw(i, b) == Raw(j, b') && i.locale == j.locale && i.args == j.args
    ensures Str(i, b, format) == Str(j, b', format)
  {
  }

  /** A key no bundle of the chain defines is a missing resource, never a
      formatting error, whatever the formatter. */
  lemma MissingKeyIsMissingResource(i: Inst, bundles: map<Locale, Bundle>, format: Formatter)
    requires i.locale in bundles
    requires forall j :: 0 <= j < |Chain(bundles[i.locale])| ==> Key(i.accessor) !in Chain(bundles[i.locale])[j]
    ensures Str(i, bundles, format) == Err(MissingResource(Key(i.accessor)))
  {
  }

  /** The message of a materialized exception is exactly what str() renders.
      A corollary of ExWithCause's contract, stated as the law callers use. */
  lemma ExMessageIsStr(i: Inst, bundles: map<Locale, Bundle>, format: Formatter, cause: Option<Throwable>)
    requires i.kind == Ex && ExWithCause(i, bundles, format, cause).Ok?
    ensures Str(i, bundles, format).Ok?
    ensures ExWithCause(i, bundles, format, cause).value.message == Str(i, bundles, format).value
    ensures ExWithCause(i, bundles, format, cause).value.cause == cause
  {
  }
}
