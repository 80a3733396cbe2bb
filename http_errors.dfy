/** The verbose HTTP exception: an error object whose message can be filled
    from a template and which carries an optional location and attribute,
    with a fixed five-key dictionary form for API responses. */
module HttpErrors {
  import opened Results

  /** Keyword arguments whose values have been converted to text. */
  type Mapping = map<string, string>

  /** The class-level `template`: a `string.Template`, a format string, or none. */
  datatype Template = NoTemplate | DollarTemplate(text: string) | FormatTemplate(text: string)
  {
    /** Python truthiness: a Template object is always true, a string when non-empty. */
    predicate Truthy()
    {
      match this
      case NoTemplate => false
      case DollarTemplate(_) => true
      case FormatTemplate(t) => t != ""
    }
  }

  /** `Template.safe_substitute` and `str.format`, which are library code. */
  datatype Renderers = Renderers(substitute: (string, Mapping) -> string, format: (string, Mapping) -> string)

  /** Python truthiness of an optional string. */
  predicate Given(s: Option<string>)
  {
    s.Some? && s.value != ""
  }

  /** The message after filling `template` from `mapping`: the filled
      template when there is one, the current message otherwise. */
  function Rendered(message: string, template: Template, mapping: Mapping, rend: Renderers): (r: string)
    ensures template.NoTemplate? ==> r == message
    ensures template.DollarTemplate? ==> r == rend.substitute(template.text, mapping)
    ensures template.FormatTemplate? ==> r == rend.format(template.text, mapping)
  {
    match template
    case NoTemplate => message
    case DollarTemplate(t) => rend.substitute(t, mapping)
    case FormatTemplate(t) => rend.format(t, mapping)
  }

  /** With a template, the filled message does not depend on the message it replaces. */
  lemma RenderedForgetsMessage(m1: string, m2: string, template: Template, mapping: Mapping, rend: Renderers)
    requires !template.NoTemplate?
    ensures Rendered(m1, template, mapping, rend) == Rendered(m2, template, mapping, rend)
  {
  }

  /** Filling a template twice with the same mapping is filling it once. */
  lemma RenderedIdempotent(message: string, template: Template, mapping: Mapping, rend: Renderers)
    ensures var once := Rendered(message, template, mapping, rend);
      Rendered(once, template, mapping, rend) == once
  {
    if !template.NoTemplate? {
      RenderedForgetsMessage(Rendered(message, template, mapping, rend), message, template, mapping, rend);
    }
  }

  /** The class attributes of a concrete exception class. */
  datatype ClassDefaults = ClassDefaults(code: string, typeName: string, message: string, loc: Option<string>,
                                         template: Template, attr: Option<string>)

  /** The dictionary form, with exactly the keys code, type, message, loc and attr. */
  datatype ErrorDict = ErrorDict(code: string, typeName: string, message: string, loc: Option<string>,
                                 attr: Option<string>)

  class VerboseHttpException {
    const code: string
    const typeName: string
    var message: string
    var loc: Option<string>
    var template: Template
    var attr: Option<string>
    /** The `attr_name` keyword of the constructor (`None` when it was not given). */
    var attrName: Option<string>
    var headers: Option<Mapping>

    /** `__init__`: a given message replaces the class message, and a
        non-empty mapping with a template then overrides it; `attr_name` is
        kept apart from `attr`. */
    constructor (defaults: ClassDefaults, attrName: Option<string>, loc: Option<string>, message: Option<string>,
                 template: Template, headers: Option<Mapping>, mapping: Mapping, rend: Renderers)
      ensures code == defaults.code && typeName == defaults.typeName
      ensures this.attrName == (if Given(attrName) then attrName else None)
      ensures this.loc == (if Given(loc) then loc else defaults.loc)
      ensures this.template == (if template.Truthy() then template else defaults.template)
      ensures var base := if Given(message) then message.value else defaults.message;
        this.message == (if mapping != map[] then Rendered(base, this.template, mapping, rend) else base)
      ensures attr == defaults.attr
      ensures this.headers == headers
    {
      code := defaults.code;
      typeName := defaults.typeName;
      this.attrName := if Given(attrName) then attrName else None;
      this.loc := if Given(loc) then loc else defaults.loc;
      this.message := if Given(message) then message.value else defaults.message;
      this.template := if template.Truthy() then template else defaults.template;
      attr := defaults.attr;
      new;
      if mapping != map[] && this.template.DollarTemplate? {
        this.message := rend.substitute(this.template.text, mapping);
      } else if mapping != map[] && this.template.FormatTemplate? {
        this.message := rend.format(this.template.text, mapping);
      }
      this.headers := headers;
    }

    /** `__str__`: the current message. */
    function Str(): (r: string)
      reads this
      ensures r == message
    {
      message
    }

    /** `from_template`: fills the template into the message, if there is a
        template, and returns the same object. */
    method FromTemplate(mapping: Mapping, rend: Renderers) returns (self: VerboseHttpException)
      modifies this
      ensures self == this
      ensures message == Rendered(old(message), template, mapping, rend)
      ensures loc == old(loc) && template == old(template) && attr == old(attr)
      ensures attrName == old(attrName) && headers == old(headers)
    {
      message := Rendered(message, template, mapping, rend);
      self := this;
    }

    /** `with_attr`: sets `attr` and returns the same object. */
    method WithAttr(name: string) returns (self: VerboseHttpException)
      modifies this
      ensures self == this && attr == Some(name)
      ensures message == old(message) && loc == old(loc) && template == old(template)
      ensures attrName == old(attrName) && headers == old(headers)
    {
      attr := Some(name);
      self := this;
    }

    /** `with_loc`: sets `loc` and returns the same object. */
    method WithLoc(l: string) returns (self: VerboseHttpException)
      modifies this
      ensures self == this && loc == Some(l)
      ensures message == old(message) && attr == old(attr) && template == old(template)
      ensures attrName == old(attrName) && headers == old(headers)
    {
      loc := Some(l);
      self := this;
    }

    /** `as_dict`: fills the template only for a non-empty mapping, then sets
        the attribute and the location only when given, and reports the five
        keys of the resulting state. */
    method AsDict(attrName: Option<string>, loc: Option<string>, mapping: Mapping, rend: Renderers)
      returns (d: ErrorDict)
      modifies this
      ensures message == (if mapping != map[] then Rendered(old(message), template, mapping, rend) else old(message))
      ensures attr == (if Given(attrName) then attrName else old(attr))
      ensures this.loc == (if Given(loc) then loc else old(this.loc))
      ensures template == old(template) && this.attrName == old(this.attrName) && headers == old(headers)
      ensures d == ErrorDict(code, typeName, message, this.loc, attr)
    {
      var self := this;
      if mapping != map[] {
        self := self.FromTemplate(mapping, rend);
      }
      if Given(attrName) {
        self := self.WithAttr(attrName.value);
      }
      if Given(loc) {
        self := self.WithLoc(loc.value);
      }
      d := ErrorDict(self.code, self.typeName, self.message, self.loc, self.attr);
    }
  }

  /** The constructor's `attr_name` never shows up under the `attr` key. */
  method ConstructorAttrNameNotReported(defaults: ClassDefaults, name: string, rend: Renderers) returns (d: ErrorDict)
    ensures d.attr == defaults.attr
    ensures d.code == defaults.code && d.typeName == defaults.typeName && d.message == defaults.message
  {
    var e := new VerboseHttpException(defaults, Some(name), None, None, NoTemplate, None, map[], rend);
    d := e.AsDict(None, None, map[], rend);
  }

  /** The chained builder `from_template(m).with_attr(a).as_dict()` reports
      the filled template and the attribute. */
  method ChainedBuilder(defaults: ClassDefaults, mapping: Mapping, name: string, rend: Renderers) returns (d: ErrorDict)
    requires defaults.template.DollarTemplate?
    ensures d.message == rend.substitute(defaults.template.text, mapping)
    ensures d.attr == Some(name) && d.loc == defaults.loc && d.code == defaults.code
  {
    var e := new VerboseHttpException(defaults, None, None, None, NoTemplate, None, map[], rend);
    var self := e.FromTemplate(mapping, rend);
    self := self.WithAttr(name);
    d := self.AsDict(None, None, map[], rend);
  }
}
