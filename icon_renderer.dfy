/**
 * The icon chooser: look a name up in the icon library, fall back to the
 * help-circle icon, and pick the class name for what is drawn.
 */
module IconRenderer {
  import opened Wrappers

  /** An icon component of the library, by its export name. */
  datatype Icon = Icon(exportName: string)

  /** What is drawn: the icon and the class it gets. */
  datatype Rendered = Rendered(icon: Icon, className: string)

  const HelpCircle: Icon := Icon("HelpCircle")
  const DefaultClassName: string := "h-7 w-7"

  /**
   * `IconRenderer({name, className, fallbackClassName})` over the icon
   * library `registry`. `className` defaults to `"h-7 w-7"` only when it is
   * not passed; `fallbackClassName` applies only when the name is unknown
   * and it is non-empty.
   */
  function RenderIcon(registry: map<string, Icon>, name: string,
                      className: Option<string>, fallbackClassName: Option<string>): (r: Rendered)
    ensures name in registry ==> r.icon == registry[name]
    ensures name !in registry ==> r.icon == HelpCircle
    ensures name !in registry && fallbackClassName.Some? && fallbackClassName.value != "" ==>
      r.className == fallbackClassName.value
    ensures name in registry || fallbackClassName.None? || fallbackClassName.value == "" ==>
      r.className == className.GetOr(DefaultClassName)
  {
    var cls := className.GetOr(DefaultClassName);
    var found := if name in registry then Some(registry[name]) else None;
    var display := found.GetOr(HelpCircle);
    var finalClassName :=
      if found.None? && fallbackClassName.Some? && fallbackClassName.value != ""
      then fallbackClassName.value else cls;
    Rendered(display, finalClassName)
  }

  /** For a known name the fallback class is ignored: any two fallbacks draw the same thing. */
  lemma KnownIgnoresFallback(registry: map<string, Icon>, name: string, className: Option<string>,
                             f1: Option<string>, f2: Option<string>)
    requires name in registry
    ensures RenderIcon(registry, name, className, f1) == RenderIcon(registry, name, className, f2)
  {
  }

  /** The class drawn is always one the caller passed, or the default. */
  lemma ClassNameIsSupplied(registry: map<string, Icon>, name: string,
                            className: Option<string>, fallbackClassName: Option<string>)
    ensures var c := RenderIcon(registry, name, className, fallbackClassName).className;
      c == className.GetOr(DefaultClassName) || Some(c) == fallbackClassName
  {
  }
}
