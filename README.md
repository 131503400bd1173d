# Typed resource instances (org.eigenbase.resource.Resources)

A Dafny model of the resource-instance mechanism of optiq's
`org.eigenbase.resource.Resources`. An accessor interface declares one method
per message; `Resources.create` returns a proxy whose invocation handler turns
each call into a resource instance (`Inst`, or `ExInst` for messages that
become exceptions) bound to the current locale, the invoked method and the
call's arguments. An instance derives its bundle key from the method (the
`@Resource` value, or the method name with its first character upper-cased),
reads the template from its locale's resource bundle (`raw`), formats it with
`MessageFormat` (`str`), and an `ExInst` builds an exception of the class named
by `@ExceptionClass` whose message is that text (`ex`).

Everything is immutable in the source, so the model is datatypes, functions
and lemmas:

- `wrappers.dfy`: `Option` (Java `null`) and `Result` (a value or what is thrown).
- `bundles.dfy`: locales and resource bundles. A bundle holds its own
  key/template map and an optional parent; `GetString` is
  `ResourceBundle.getString`, which searches the bundle and then its parent
  chain, and is proved to return the template of the first bundle in the chain
  that defines the key, failing exactly when none does.
- `resources.dfy`: accessor methods (`Method`, with their `@Resource`,
  `@BaseMessage` and `@ExceptionClass` annotations as optional fields),
  instances (`Inst` with kind `Plain` or `Ex`), the proxy's handler
  (`Invoke`), `Localize`, `Validate`, key derivation (`UpperCase`,
  `Capitalize`, `Key`), `BundleOf`, `Raw`, `Str`, `ExceptionClassOf`,
  `ExWithCause`, `ExNoCause`, and the laws relating them.

Inputs the source reads from outside the file are parameters: the thread's
current locale (`EigenbaseResource.getThreadOrDefaultLocale`) is the `current`
argument of `Invoke`; the loaded bundles (`EigenbaseResource.instance`) are a
`map<Locale, Bundle>`, a locale without one giving `NoBundle`; and
`java.text.MessageFormat` is a `Formatter` parameter, a function from
(template, locale, arguments) to the formatted text or `None` for its
`IllegalArgumentException`. Nothing is assumed about the formatter except
that it is a function. One `Formatter` value stands for `MessageFormat` under
one fixed JVM default locale: `new MessageFormat(message)` builds typed
subformats (`{0,number}`, `{0,date}`) under that default, and the later
`setLocale` does not rebuild them, so the source's rendering also reads that
process-wide setting (see "Left out").

Exceptions are `Error` values: `NoSuchConstructor` (the handler's
`getConstructor` fails for a return type other than `Inst`/`ExInst`),
`NoBundle`, `MissingResource` (`getString` finds no template), `IllegalArgument`
(`MessageFormat` rejects the template or an argument), `NullPointer` (`ex` on a
method without `@ExceptionClass`, whose annotation lookup returns null) and
`InternalError` (the `RuntimeException` that wraps the four reflective
exceptions caught in `ex`). `ExWithCause` yields them in the source's order:
annotation, constructor lookup, message, instantiation; so a missing
constructor is reported even when the template is also missing, and a missing
template even when instantiation would also fail.

The key law: with `@Resource`, the key is that value whatever the method's
name; without it, the key has the name's length, its first character is
`UpperCase` of the name's first, and the rest is the name's rest. Java method
names are never empty, so `MethodName` is a non-empty string and `charAt(0)`
cannot fail. Derived keys can collide: `count` and `Count` both give `Count`
(`CapitalizeCollision` states exactly when), and nothing in the source detects it.
Likewise overloads of one name without `@Resource`, such as `f(int)` and
`f(String)`, are distinct methods giving distinct instances but read the same
bundle entry (`OverloadsShareKey`).

## Model

| member | source | states |
|---|---|---|
| `Bundles.GetString` | core/src/main/java/org/eigenbase/resource/Resources.java:102 | getString fails exactly when no bundle of the chain defines the key |
| `Bundles.GetStringFoundAt` | core/src/main/java/org/eigenbase/resource/Resources.java:102 | a template getString returns is stored under the key by some bundle of the chain, and no earlier bundle defines the key |
| `Bundles.GetStringIsFirstMatch` | core/src/main/java/org/eigenbase/resource/Resources.java:102 | getString returns v if and only if v is the template of the first bundle in the chain defining the key (both directions) |
| `Bundles.GetStringWithoutParent` | core/src/main/java/org/eigenbase/resource/Resources.java:102 | for a bundle without a parent, getString is plain map lookup: the entry, or a failure when the key is absent |
| `Resources.Invoke` | core/src/main/java/org/eigenbase/resource/Resources.java:44-53 | the handler succeeds exactly when the return type is Inst or ExInst, and then yields an instance of that kind bound to the current locale, the invoked method and the arguments (the empty sequence for null); otherwise the constructor lookup fails |
| `Resources.InvokeDistinguishesMethods` | core/src/main/java/org/eigenbase/resource/Resources.java:44-53 | distinct methods, overloads of one name included, give distinct instances: the instance records the method's identity, not just its name (the bundle key, by contrast, reads only the name and `@Resource`; see `OverloadsShareKey`) |
| `Resources.Localize` | core/src/main/java/org/eigenbase/resource/Resources.java:76-78 | localize gives an instance with the new locale and the same method, arguments and kind (ExInst.localize, lines 122-124, keeps an ExInst an ExInst) |
| `Resources.LocalizeComposes` | core/src/main/java/org/eigenbase/resource/Resources.java:76-78 | localizing twice has the same locale, method, arguments and kind as localizing once to the last locale; localizing to the instance's own locale has the same fields as the instance |
| `Resources.LocalizeInvoke` | core/src/main/java/org/eigenbase/resource/Resources.java:122-124 | re-localizing an instance the handler built has the same fields as building it under that locale, for both kinds |
| `Resources.Validate` | core/src/main/java/org/eigenbase/resource/Resources.java:80-92 | validate answers true for every instance and every value of fail: none of its intended checks is made |
| `Resources.UpperCase` | core/src/main/java/org/eigenbase/resource/Resources.java:111 | an ASCII lower-case letter maps to its upper-case letter, everything else to itself; the result is never a lower-case letter |
| `Resources.Capitalize` | core/src/main/java/org/eigenbase/resource/Resources.java:110-111 | the derived key has the name's length, its upper-cased first character, and the name's remaining characters unchanged |
| `Resources.Key` | core/src/main/java/org/eigenbase/resource/Resources.java:105-113 | the key is the @Resource value when present, otherwise the capitalized method name |
| `Resources.ExplicitKeyIgnoresName` | core/src/main/java/org/eigenbase/resource/Resources.java:105-108 | methods with the same @Resource value have that value as key, whatever their names |
| `Resources.OverloadsShareKey` | core/src/main/java/org/eigenbase/resource/Resources.java:105-113 | two methods without @Resource that share a name have the same key, whatever their parameter types |
| `Resources.CapitalizeIdempotent` | core/src/main/java/org/eigenbase/resource/Resources.java:110-111 | a derived key derives itself |
| `Resources.CapitalizeCollision` | core/src/main/java/org/eigenbase/resource/Resources.java:110-111 | two names give the same derived key exactly when they have equal length, equal tails and first characters that upper-case alike |
| `Resources.BundleOf` | core/src/main/java/org/eigenbase/resource/Resources.java:72-74 | bundle() is the bundle loaded for the instance's locale, or NoBundle when there is none |
| `Resources.Raw` | core/src/main/java/org/eigenbase/resource/Resources.java:101-103 | raw() fails with MissingResource(key) exactly when no bundle of the locale's chain defines the key, and otherwise returns the template the first defining bundle stores, never a default text |
| `Resources.MissingKeyIsMissingResource` | core/src/main/java/org/eigenbase/resource/Resources.java:101-103 | with the key absent from the locale's bundles, str() fails with MissingResource and never with a formatting error, whatever the formatter |
| `Resources.Str` | core/src/main/java/org/eigenbase/resource/Resources.java:94-99 | str() succeeds exactly when raw() does and the formatter accepts (template, locale, arguments), with the formatter's text; raw()'s error propagates, a rejected template is IllegalArgument |
| `Resources.StrDependsOnRawLocaleArgs` | core/src/main/java/org/eigenbase/resource/Resources.java:94-99 | for one formatter (MessageFormat under one fixed JVM default locale), str() is a function of raw(), the locale and the arguments alone, so rendering an instance twice against unchanged bundles, an unchanged default locale, an unchanged default time zone and unchanged argument objects gives the same text |
| `Resources.ExceptionClassOf` | core/src/main/java/org/eigenbase/resource/Resources.java:149-153 | getExceptionClass returns the @ExceptionClass class, and throws NullPointer when the method has no such annotation |
| `Resources.ExWithCause` | core/src/main/java/org/eigenbase/resource/Resources.java:130-147 | ex(cause) succeeds exactly when the exception class is declared, has the (String, Throwable) constructor, can be instantiated and str() succeeds, yielding an exception of that class with message str() and the given cause; each of the four failures is pinned to its error, in the source's order: NullPointer without the annotation, InternalError without the constructor, str()'s error, InternalError when instantiation fails |
| `Resources.ExNoCause` | core/src/main/java/org/eigenbase/resource/Resources.java:126-128 | ex() is ex(null) |
| `Resources.ExMessageIsStr` | core/src/main/java/org/eigenbase/resource/Resources.java:130-137 | a materialized exception's message equals str() and its cause is the one supplied |

## Left out

- The proxy itself (`Proxy.newProxyInstance`, lines 39-43): it is Java
  reflection; the model keeps only its handler, `Invoke`, as a function from the
  invoked method and arguments to an instance. A return type other than
  `Inst`/`ExInst` that happens to have a (Locale, Method, Object[]) constructor is
  not modelled; every other return type gives `NoSuchConstructor`. The proxy's
  wrapping of that checked exception in `UndeclaredThrowableException` is not
  distinguished.
- Aliasing of the argument array: the source stores the caller's `Object[]`
  without copying it; the model's arguments are an immutable sequence.
- `UpperCase`: models `Character.toUpperCase` on ASCII letters only; other
  letters (such as Latin-1 or Greek ones) are left unchanged, whereas Java maps
  them to their upper-case forms.
- `Value`, `StrDependsOnRawLocaleArgs`: arguments are modelled as null,
  immutable strings and integers only; doubles, `BigDecimal`, `Date`,
  `Boolean` and arbitrary objects are not represented. `MessageFormat` formats
  a `Date` under the process-wide default time zone and any other object
  through its `toString()`, and the argument array is stored without copying,
  so the determinism law also assumes a fixed default time zone and argument
  objects that do not change between renders.
- Instances are compared by their fields: `Inst` does not override `equals`,
  so in Java `i.localize(i.locale)` is a new object neither `==` nor `equals`
  to `i`; the localization laws state field-wise equality, not object identity.
- `StrDependsOnRawLocaleArgs`, `Str`: the JVM default locale is not an input.
  `new MessageFormat(message)` parses the template under the process-wide
  default locale and `setLocale` afterwards does not rebuild typed subformats,
  so in the source two renders against unchanged bundles can differ if that
  default changes in between; a `Formatter` value models `MessageFormat` under
  one fixed default, and the lemma holds only while that default is unchanged.
- `java.text.MessageFormat`: its pattern syntax, quoting, number and date
  formats are library behaviour, kept behind the `Formatter` parameter.
  Hence no concrete rendering (such as `Table {0} not found` with `emps`) is
  proved.
- Loading of resource bundles and the thread's current locale
  (`EigenbaseResource` is not part of this model): both are inputs. How the
  loader picks a parent chain for a locale is not modelled; getString's search
  of the chain it is given is.
- The reflective failures in `ex` are two flags on `ExceptionClass`
  (`hasConstructor`, `instantiable`) and a single `InternalError`; which of
  `InstantiationException`, `IllegalAccessException` or
  `InvocationTargetException` occurred, and the wrapped exception, are not kept.
  A constructor that ignores its arguments is not modelled: the exception built
  always carries the message and the cause. Constructor failure does not
  depend on the arguments: `instantiable` is per class, so a constructor that
  throws (an `InvocationTargetException`, hence `InternalError`) only for some
  messages or causes cannot be represented.
- `getString` throwing `ClassCastException` for a non-string bundle value: the
  bundle entries are strings.
- The checks listed in `validate`'s comments: they are not implemented in the
  source and are not modelled as enforced.
- The annotation types `BaseMessage`, `Resource`, `ExceptionClass` and
  `Property` (lines 156-179) appear only as optional fields of `Method`;
  `@Property` is not read by the mechanism and is not represented.
- The `Schema` interface of net.hydromatic.optiq declares methods without
  bodies; it is not part of this model.
