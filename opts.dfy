/** The `CmdLineOptions` derive macro (sp_derive/opts.rs).

    The macro reads the `#[opt(...)]` and `#[flag(...)]` attributes of every field
    of a struct and the `#[optcont(...)]` attributes of the struct itself, folds
    them into option records and container settings, rejects what it does not
    accept, and generates a `help` function (a fixed-layout text) and a `parse`
    function (a list of option registrations and a list of field assignments).
    Attribute syntax is modelled after the `syn` crate's `Meta` tree; generated
    code is modelled as the lists it is built from, not as tokens. */
module Opts {
  import opened Wrappers
  import opened Seqs

  // ================================================================ attribute syntax

  /** A literal: only string literals matter to the macro. */
  datatype Lit = Str(s: string) | Other

  /** `syn::Meta`: `x`, `x(...)` or `x = lit`. */
  datatype Meta =
    | Word(ident: string)
    | List(ident: string, nested: seq<NestedMeta>)
    | NameValue(ident: string, lit: Lit)

  /** `syn::NestedMeta`: an item inside `x(...)`. */
  datatype NestedMeta = MetaItem(meta: Meta) | Literal(lit: Lit)

  /** What follows the path of an attribute: nothing, a parenthesised list,
      `= lit`, or tokens that do not read as a `Meta`. */
  datatype AttrTokens = Bare | Parenthesized(items: seq<NestedMeta>) | Assigned(value: Lit) | Unparsed

  /** `#[path tokens]`. */
  datatype Attribute = Attribute(path: seq<string>, tokens: AttrTokens)

  /** A struct field: its name (`None` for a tuple-struct field) and attributes. */
  datatype Field = Field(ident: Option<string>, attrs: seq<Attribute>)

  datatype Data = Struct(fields: seq<Field>) | Enum | Union

  /** The item the derive is applied to. */
  datatype DeriveInput = DeriveInput(ident: string, attrs: seq<Attribute>, data: Data)

  function MetaIdent(m: Meta): string
  {
    match m
    case Word(id) => id
    case List(id, _) => id
    case NameValue(id, _) => id
  }

  /** `Attribute::interpret_meta` of syn: only a one-segment path has a `Meta`
      reading, and the `Meta` is named after that segment. */
  function InterpretMeta(attr: Attribute): (m: Option<Meta>)
    ensures m.Some? ==> |attr.path| == 1 && MetaIdent(m.value) == attr.path[0]
  {
    if |attr.path| != 1 then None
    else match attr.tokens
      case Bare => Some(Word(attr.path[0]))
      case Parenthesized(items) => Some(List(attr.path[0], items))
      case Assigned(value) => Some(NameValue(attr.path[0], value))
      case Unparsed => None
  }

  // ================================================================ diagnostics

  /** A compile error emitted by the macro (`syn::Error`); its span is not
      modelled. */
  datatype Error = Error(msg: string)

  const ExpectedStringLiteral := "Expected string literal"
  const ExpectedOneOfOpt :=
    "Expected one of: name = \"...\", names(...), desc = \"...\", value_desc = \"...\" parser = \"...\""
  const ValueDescOnOptionsOnly := "Value description allowed on options only"
  const ParserOnOptionsOnly := "Parser allowed on options only"
  const UnnamedOption := "Unnamed options are not allowed"
  const InvalidOptAttribute := "Invalid attribute in #[opt(...)] or in #[flag(...)]"
  const ExpectedOneOfContainer := "Expected one of: delimeters = \"...\", usage = \"...\" default_parser = \"...\""
  const InvalidContainerAttributes := "Invalid attributes in #[optcont(...)]"
  const EnumsUnsupported := "Derive for enums is not supported"
  const UnionsUnsupported := "Derive for unions is not supported"
  const NoParserFound := "Unable to find parser for this field"

  // ================================================================ option records

  /** `OptKind`: `Valued` is the source's `OptKind::Opt(OptKindOpt)`, an option
      that takes a value described by `valueDesc` and read by `parser` (a path,
      kept as its text). */
  datatype OptKind = Invalid | Valued(valueDesc: string, parser: Option<string>) | Flag

  /** `Opt`: one command-line option bound to a field. */
  datatype Opt = Opt(kind: OptKind, names: seq<string>, desc: string, field: Field)

  /** `Opt::new`. */
  function NewOpt(kind: OptKind, field: Field): (o: Opt)
    ensures o.kind == kind && o.field == field && |o.names| == 0 && |o.desc| == 0
  {
    Opt(kind, [], "", field)
  }

  /** `OptAttribute`: one item of `#[opt(...)]` / `#[flag(...)]`. */
  datatype OptAttribute =
    | Name(text: string)
    | Names(list: seq<string>)
    | Desc(text: string)
    | ValueDesc(text: string)
    | Parser(text: string)

  /** `expect_str`: the text of a string literal; anything else is an error. */
  function ExpectStr(lit: Lit): (r: Result<string, Error>)
    ensures r.Ok? <==> lit.Str?
    ensures r.Ok? ==> r.value == lit.s
    ensures r.Err? ==> r.error == Error(ExpectedStringLiteral)
  {
    match lit
    case Str(s) => Ok(s)
    case Other => Err(Error(ExpectedStringLiteral))
  }

  /** `OptAttribute::from_name_value`: `name`, `desc`, `value_desc` and `parser`
      take a string literal; any other key is rejected. */
  function FromNameValue(ident: string, lit: Lit): (r: Result<OptAttribute, Error>)
    ensures r.Ok? <==> ident in {"name", "desc", "value_desc", "parser"} && lit.Str?
    ensures r.Ok? ==> !r.value.Names? && r.value.text == lit.s
    ensures r.Ok? ==> (r.value.Name? <==> ident == "name") && (r.value.Desc? <==> ident == "desc") &&
                      (r.value.ValueDesc? <==> ident == "value_desc") && (r.value.Parser? <==> ident == "parser")
    ensures r.Err? ==> r.error == if ident in {"name", "desc", "value_desc", "parser"}
                                  then Error(ExpectedStringLiteral) else Error(ExpectedOneOfOpt)
  {
    match ident
    case "name" => var s :- ExpectStr(lit); Ok(Name(s))
    case "desc" => var s :- ExpectStr(lit); Ok(Desc(s))
    case "value_desc" => var s :- ExpectStr(lit); Ok(ValueDesc(s))
    case "parser" => var s :- ExpectStr(lit); Ok(Parser(s))
    case _ => Err(Error(ExpectedOneOfOpt))
  }

  /** One item of `names(...)`: a string literal is a name, anything else an error. */
  function NameOf(item: NestedMeta): Result<string, Error>
  {
    match item
    case Literal(l) => ExpectStr(l)
    case MetaItem(_) => Err(Error(ExpectedStringLiteral))
  }

  /** What `OptAttribute::names_from_meta_list` computes for the items of
      `names(...)`. */
  function NamesFromList(nested: seq<NestedMeta>): Result<OptAttribute, Error>
  {
    match TryMap(nested, NameOf)
    case Ok(v) => Ok(Names(v))
    case Err(e) => Err(e)
  }

  /** `OptAttribute::names_from_meta_list`: collect the names, stopping at the
      first item that is not a string literal. */
  method NamesFromMetaList(nested: seq<NestedMeta>) returns (r: Result<OptAttribute, Error>)
    ensures r == NamesFromList(nested)
  {
    var names: seq<string> := [];
    assert nested[0..] == nested;
    PrependOkNothing(TryMap(nested, NameOf), names);
    for i := 0 to |nested|
      invariant TryMap(nested, NameOf) == PrependOk(names, TryMap(nested[i..], NameOf))
    {
      TryMapAt(nested, i, NameOf);
      match nested[i]
      case Literal(l) =>
        var s :- ExpectStr(l);
        PrependOkTwice(names, [s], TryMap(nested[i + 1..], NameOf));
        names := names + [s];
      case MetaItem(_) =>
        return Err(Error(ExpectedStringLiteral));
    }
    assert nested[|nested|..] == [];
    PrependOkNothing(TryMap(nested, NameOf), names);
    r := Ok(Names(names));
  }

  /** `names(...)` is accepted exactly when every item is a string literal, and it
      then lists those strings in order. */
  lemma NamesNeedStringLiterals(nested: seq<NestedMeta>)
    ensures NamesFromList(nested).Ok? <==>
              forall i :: 0 <= i < |nested| ==> nested[i].Literal? && nested[i].lit.Str?
    ensures NamesFromList(nested).Ok? ==>
              var v := NamesFromList(nested).value.list;
              |v| == |nested| && forall i :: 0 <= i < |nested| ==> v[i] == nested[i].lit.s
    ensures NamesFromList(nested).Err? ==> NamesFromList(nested).error == Error(ExpectedStringLiteral)
  {
    TryMapOk(nested, NameOf);
    if TryMap(nested, NameOf).Err? {
      TryMapErr(nested, NameOf);
    }
  }

  /** `OptAttribute::from_meta`: `names(...)`, or one of the `key = "..."` forms. */
  function AttrFromMeta(meta: Meta): (r: Result<OptAttribute, Error>)
    ensures r.Ok? && r.value.Names? ==> meta.List? && meta.ident == "names"
    ensures r.Ok? && !r.value.Names? ==> meta.NameValue?
    ensures meta.List? && meta.ident == "names" ==> r == NamesFromList(meta.nested)
    ensures meta.NameValue? ==> r == FromNameValue(meta.ident, meta.lit)
    ensures meta.Word? || (meta.List? && meta.ident != "names") ==> r == Err(Error(ExpectedOneOfOpt))
  {
    match meta
    case List(id, nested) =>
      if id != "names" then Err(Error(ExpectedOneOfOpt)) else NamesFromList(nested)
    case NameValue(id, lit) => FromNameValue(id, lit)
    case Word(_) => Err(Error(ExpectedOneOfOpt))
  }

  /** An item of `#[opt(...)]`: it must be a `Meta`, not a bare literal. */
  function AttrFromNested(item: NestedMeta): Result<OptAttribute, Error>
  {
    match item
    case MetaItem(m) => AttrFromMeta(m)
    case Literal(_) => Err(Error(ExpectedOneOfOpt))
  }

  /** The kind named by the attribute: `opt`, `flag`, or anything else. */
  function KindOf(ident: string): (k: OptKind)
    ensures k.Valued? <==> ident == "opt"
    ensures k.Flag? <==> ident == "flag"
    ensures k.Valued? ==> k.valueDesc == "" && k.parser == None
  {
    match ident
    case "opt" => Valued("", None)
    case "flag" => Flag
    case _ => Invalid
  }

  /** One step of the second loop of `Opt::from_meta_list`. */
  function ApplyAttr(opt: Opt, a: OptAttribute): Result<Opt, Error>
  {
    match a
    case Name(s) => Ok(opt.(names := [s]))
    case Names(v) => Ok(opt.(names := v))
    case Desc(s) => Ok(opt.(desc := s))
    case ValueDesc(s) =>
      if opt.kind.Valued? then Ok(opt.(kind := opt.kind.(valueDesc := s)))
      else Err(Error(ValueDescOnOptionsOnly))
    case Parser(s) =>
      if opt.kind.Valued? then Ok(opt.(kind := opt.kind.(parser := Some(s))))
      else Err(Error(ParserOnOptionsOnly))
  }

  /** The attributes applied left to right, stopping at the first error. */
  function ApplyAttrs(opt: Opt, attrs: seq<OptAttribute>): Result<Opt, Error>
    decreases |attrs|
  {
    if |attrs| == 0 then Ok(opt)
    else match ApplyAttr(opt, attrs[0])
      case Err(e) => Err(e)
      case Ok(o) => ApplyAttrs(o, attrs[1..])
  }

  /** What `Opt::from_meta_list` computes for `ident(nested...)`. */
  function OptFromList(field: Field, ident: string, nested: seq<NestedMeta>): Result<Opt, Error>
  {
    match TryMap(nested, AttrFromNested)
    case Err(e) => Err(e)
    case Ok(attrs) =>
      match ApplyAttrs(NewOpt(KindOf(ident), field), attrs)
      case Err(e) => Err(e)
      case Ok(o) => if |o.names| == 0 then Err(Error(UnnamedOption)) else Ok(o)
  }

  /** `Opt::from_meta_list`: read every item into an attribute (stopping at the
      first bad one), then apply the attributes in order to a fresh option of the
      named kind, then insist on a name. */
  method FromMetaList(field: Field, ident: string, nested: seq<NestedMeta>) returns (r: Result<Opt, Error>)
    ensures r == OptFromList(field, ident, nested)
  {
    var attrs :- ReadOptAttrs(nested);
    var opt :- ApplyOptAttrs(NewOpt(KindOf(ident), field), attrs);
    if |opt.names| == 0 {
      return Err(Error(UnnamedOption));
    }
    r := Ok(opt);
  }

  /** The first loop of `Opt::from_meta_list`: every item must be a `Meta` that
      reads as an attribute; the first one that does not is the error. */
  method ReadOptAttrs(nested: seq<NestedMeta>) returns (r: Result<seq<OptAttribute>, Error>)
    ensures r == TryMap(nested, AttrFromNested)
  {
    var attrs: seq<OptAttribute> := [];
    assert nested[0..] == nested;
    PrependOkNothing(TryMap(nested, AttrFromNested), attrs);
    for i := 0 to |nested|
      invariant TryMap(nested, AttrFromNested) == PrependOk(attrs, TryMap(nested[i..], AttrFromNested))
    {
      TryMapAt(nested, i, AttrFromNested);
      match nested[i]
      case MetaItem(m) =>
        var a :- AttrFromMeta(m);
        PrependOkTwice(attrs, [a], TryMap(nested[i + 1..], AttrFromNested));
        attrs := attrs + [a];
      case Literal(_) =>
        return Err(Error(ExpectedOneOfOpt));
    }
    assert nested[|nested|..] == [];
    PrependOkNothing(TryMap(nested, AttrFromNested), attrs);
    r := Ok(attrs);
  }

  /** The second loop of `Opt::from_meta_list`: each attribute overwrites its
      part of the option; `value_desc` and `parser` on anything but a valued
      option are errors. */
  method ApplyOptAttrs(start: Opt, attrs: seq<OptAttribute>) returns (r: Result<Opt, Error>)
    ensures r == ApplyAttrs(start, attrs)
  {
    var opt := start;
    assert attrs[0..] == attrs;
    for i := 0 to |attrs|
      invariant ApplyAttrs(start, attrs) == ApplyAttrs(opt, attrs[i..])
    {
      assert attrs[i..][0] == attrs[i] && attrs[i..][1..] == attrs[i + 1..];
      match attrs[i]
      case Name(s) =>
        opt := opt.(names := [s]);
      case Names(v) =>
        opt := opt.(names := v);
      case Desc(s) =>
        opt := opt.(desc := s);
      case ValueDesc(s) =>
        if opt.kind.Valued? {
          opt := opt.(kind := opt.kind.(valueDesc := s));
        } else {
          return Err(Error(ValueDescOnOptionsOnly));
        }
      case Parser(s) =>
        if opt.kind.Valued? {
          opt := opt.(kind := opt.kind.(parser := Some(s)));
        } else {
          return Err(Error(ParserOnOptionsOnly));
        }
    }
    assert attrs[|attrs|..] == [];
    r := Ok(opt);
  }

  // ---------------------------------------------------------------- last one wins

  /** The names an attribute sets, if it sets any. */
  function NamesSet(a: OptAttribute): Option<seq<string>>
  {
    match a
    case Name(s) => Some([s])
    case Names(v) => Some(v)
    case _ => None
  }

  function DescSet(a: OptAttribute): Option<string>
  {
    if a.Desc? then Some(a.text) else None
  }

  function ValueDescSet(a: OptAttribute): Option<string>
  {
    if a.ValueDesc? then Some(a.text) else None
  }

  function ParserSet(a: OptAttribute): Option<string>
  {
    if a.Parser? then Some(a.text) else None
  }

  /** An attribute that only an option (not a flag) may carry. */
  predicate ValueOnly(a: OptAttribute)
  {
    a.ValueDesc? || a.Parser?
  }

  /** Applying attributes keeps the kind's variant and the field; the names, the
      description, the value description and the parser are each those of the
      LAST attribute that sets them (the starting value when none does). */
  lemma ApplyAttrsLastWins(opt: Opt, attrs: seq<OptAttribute>)
    requires ApplyAttrs(opt, attrs).Ok?
    ensures var o := ApplyAttrs(opt, attrs).value;
      && o.field == opt.field
      && o.kind.Valued? == opt.kind.Valued? && o.kind.Flag? == opt.kind.Flag?
      && o.names == LastOf(attrs, NamesSet).GetOr(opt.names)
      && o.desc == LastOf(attrs, DescSet).GetOr(opt.desc)
      && (o.kind.Valued? ==> o.kind.valueDesc == LastOf(attrs, ValueDescSet).GetOr(opt.kind.valueDesc))
      && (o.kind.Valued? ==> o.kind.parser == match LastOf(attrs, ParserSet)
                                              case Some(p) => Some(p)
                                              case None => opt.kind.parser)
  {
    ApplyAttrsKeepShape(opt, attrs);
    ApplyAttrsNames(opt, attrs);
    ApplyAttrsDesc(opt, attrs);
    ApplyAttrsValueDesc(opt, attrs);
    ApplyAttrsParser(opt, attrs);
  }

  /** Applying attributes keeps the field and the kind's variant. */
  lemma {:induction false} ApplyAttrsKeepShape(opt: Opt, attrs: seq<OptAttribute>)
    requires ApplyAttrs(opt, attrs).Ok?
    ensures var o := ApplyAttrs(opt, attrs).value;
            o.field == opt.field && o.kind.Valued? == opt.kind.Valued? && o.kind.Flag? == opt.kind.Flag?
    decreases |attrs|
  {
    if |attrs| > 0 {
      ApplyAttrsKeepShape(ApplyAttr(opt, attrs[0]).value, attrs[1..]);
    }
  }

  /** The names are those of the last `name` or `names` attribute. */
  lemma {:induction false} ApplyAttrsNames(opt: Opt, attrs: seq<OptAttribute>)
    requires ApplyAttrs(opt, attrs).Ok?
    ensures ApplyAttrs(opt, attrs).value.names == LastOf(attrs, NamesSet).GetOr(opt.names)
    decreases |attrs|
  {
    if |attrs| > 0 {
      ApplyAttrsNames(ApplyAttr(opt, attrs[0]).value, attrs[1..]);
    }
  }

  /** The description is that of the last `desc` attribute. */
  lemma {:induction false} ApplyAttrsDesc(opt: Opt, attrs: seq<OptAttribute>)
    requires ApplyAttrs(opt, attrs).Ok?
    ensures ApplyAttrs(opt, attrs).value.desc == LastOf(attrs, DescSet).GetOr(opt.desc)
    decreases |attrs|
  {
    if |attrs| > 0 {
      ApplyAttrsDesc(ApplyAttr(opt, attrs[0]).value, attrs[1..]);
    }
  }

  /** On a valued option, the value description is that of the last
      `value_desc` attribute. */
  lemma {:induction false} ApplyAttrsValueDesc(opt: Opt, attrs: seq<OptAttribute>)
    requires ApplyAttrs(opt, attrs).Ok?
    ensures var o := ApplyAttrs(opt, attrs).value;
            opt.kind.Valued? ==> o.kind.Valued? && o.kind.valueDesc == LastOf(attrs, ValueDescSet).GetOr(opt.kind.valueDesc)
    decreases |attrs|
  {
    if |attrs| > 0 {
      var o1 := ApplyAttr(opt, attrs[0]).value;
      ApplyAttrsKeepShape(o1, attrs[1..]);
      ApplyAttrsValueDesc(o1, attrs[1..]);
    }
  }

  /** On a valued option, the parser is that of the last `parser` attribute. */
  lemma {:induction false} ApplyAttrsParser(opt: Opt, attrs: seq<OptAttribute>)
    requires ApplyAttrs(opt, attrs).Ok?
    ensures var o := ApplyAttrs(opt, attrs).value;
            opt.kind.Valued? ==> o.kind.Valued? && o.kind.parser == match LastOf(attrs, ParserSet)
                                                                    case Some(p) => Some(p)
                                                                    case None => opt.kind.parser
    decreases |attrs|
  {
    if |attrs| > 0 {
      var o1 := ApplyAttr(opt, attrs[0]).value;
      ApplyAttrsKeepShape(o1, attrs[1..]);
      ApplyAttrsParser(o1, attrs[1..]);
    }
  }

  /** Applying attributes fails exactly when the option is not a valued one and
      some attribute is `value_desc` or `parser`; the error names the first such
      attribute. */
  lemma ApplyAttrsFails(opt: Opt, attrs: seq<OptAttribute>)
    ensures ApplyAttrs(opt, attrs).Err? <==>
              !opt.kind.Valued? && exists i :: 0 <= i < |attrs| && ValueOnly(attrs[i])
    ensures ApplyAttrs(opt, attrs).Err? ==>
              exists k :: 0 <= k < |attrs| && ValueOnly(attrs[k]) &&
                (forall j :: 0 <= j < k ==> !ValueOnly(attrs[j])) &&
                ApplyAttrs(opt, attrs).error ==
                  if attrs[k].ValueDesc? then Error(ValueDescOnOptionsOnly) else Error(ParserOnOptionsOnly)
  {
    ApplyAttrsErrIff(opt, attrs);
    if ApplyAttrs(opt, attrs).Err? {
      ApplyAttrsFirstBad(opt, attrs);
    }
  }

  /** Applying attributes fails exactly when the option is not a valued one and
      some attribute is `value_desc` or `parser`. */
  lemma {:induction false} ApplyAttrsErrIff(opt: Opt, attrs: seq<OptAttribute>)
    ensures ApplyAttrs(opt, attrs).Err? <==>
              !opt.kind.Valued? && exists i :: 0 <= i < |attrs| && ValueOnly(attrs[i])
    decreases |attrs|
  {
    if |attrs| > 0 && ApplyAttr(opt, attrs[0]).Ok? {
      var o1 := ApplyAttr(opt, attrs[0]).value;
      assert o1.kind.Valued? == opt.kind.Valued?;
      ApplyAttrsErrIff(o1, attrs[1..]);
      if !opt.kind.Valued? && exists i :: 0 <= i < |attrs| && ValueOnly(attrs[i]) {
        var i :| 0 <= i < |attrs| && ValueOnly(attrs[i]);
        assert i > 0 && attrs[1..][i - 1] == attrs[i];
      }
      if !opt.kind.Valued? && exists i :: 0 <= i < |attrs[1..]| && ValueOnly(attrs[1..][i]) {
        var i :| 0 <= i < |attrs[1..]| && ValueOnly(attrs[1..][i]);
        assert attrs[i + 1] == attrs[1..][i];
      }
    }
  }

  /** A failure names the first `value_desc` or `parser` attribute. */
  lemma {:induction false} ApplyAttrsFirstBad(opt: Opt, attrs: seq<OptAttribute>)
    requires ApplyAttrs(opt, attrs).Err?
    ensures exists k :: 0 <= k < |attrs| && ValueOnly(attrs[k]) &&
              (forall j :: 0 <= j < k ==> !ValueOnly(attrs[j])) &&
              ApplyAttrs(opt, attrs).error ==
                if attrs[k].ValueDesc? then Error(ValueDescOnOptionsOnly) else Error(ParserOnOptionsOnly)
    decreases |attrs|
  {
    ApplyAttrsErrIff(opt, attrs);
    if ApplyAttr(opt, attrs[0]).Ok? {
      assert !ValueOnly(attrs[0]);
      var o1 := ApplyAttr(opt, attrs[0]).value;
      ApplyAttrsFirstBad(o1, attrs[1..]);
      var k :| 0 <= k < |attrs[1..]| && ValueOnly(attrs[1..][k]) &&
               (forall j :: 0 <= j < k ==> !ValueOnly(attrs[1..][j])) &&
               ApplyAttrs(o1, attrs[1..]).error ==
                 if attrs[1..][k].ValueDesc? then Error(ValueDescOnOptionsOnly) else Error(ParserOnOptionsOnly);
      assert attrs[k + 1] == attrs[1..][k];
      forall j | 0 <= j < k + 1
        ensures !ValueOnly(attrs[j])
      {
        if j > 0 {
          assert attrs[j] == attrs[1..][j - 1];
        }
      }
    } else {
      assert ValueOnly(attrs[0]);
    }
  }

  /** An option read from `ident(...)` succeeds only with a non-empty name list,
      and that list is the one given by the last `name`/`names` item; with no
      such item, or an empty `names()`, it is rejected as unnamed. */
  lemma OptNamedByLastNamesItem(field: Field, ident: string, nested: seq<NestedMeta>)
    requires TryMap(nested, AttrFromNested).Ok?
    requires ApplyAttrs(NewOpt(KindOf(ident), field), TryMap(nested, AttrFromNested).value).Ok?
    ensures var attrs := TryMap(nested, AttrFromNested).value;
            OptFromList(field, ident, nested).Ok? <==>
              LastOf(attrs, NamesSet).Some? && |LastOf(attrs, NamesSet).value| > 0
    ensures var attrs := TryMap(nested, AttrFromNested).value;
            OptFromList(field, ident, nested).Ok? ==>
              OptFromList(field, ident, nested).value.names == LastOf(attrs, NamesSet).value
    ensures OptFromList(field, ident, nested).Err? ==>
              OptFromList(field, ident, nested).error == Error(UnnamedOption)
  {
    ApplyAttrsLastWins(NewOpt(KindOf(ident), field), TryMap(nested, AttrFromNested).value);
  }

  // ================================================================ fields

  /** `Opt::from_meta`: only `#[opt(...)]` / `#[flag(...)]` with a list reads as an
      option. */
  function FromMeta(field: Field, attr: Attribute): Result<Opt, Error>
  {
    match InterpretMeta(attr)
    case Some(List(ident, nested)) => OptFromList(field, ident, nested)
    case _ => Err(Error(InvalidOptAttribute))
  }

  /** Only an attribute written as a list reads as an option; the list then gives
      its kind and items, and any other attribute is rejected. */
  lemma FromMetaCases(field: Field, attr: Attribute)
    ensures FromMeta(field, attr).Ok? ==> |attr.path| == 1 && attr.tokens.Parenthesized?
    ensures (|attr.path| == 1 && attr.tokens.Parenthesized?) ==>
              FromMeta(field, attr) == OptFromList(field, attr.path[0], attr.tokens.items)
    ensures !(|attr.path| == 1 && attr.tokens.Parenthesized?) ==>
              FromMeta(field, attr) == Err(Error(InvalidOptAttribute))
  {
  }

  /** An attribute that `Opt::from_field` looks at: the path is `opt` or `flag`. */
  predicate IsOptAttr(a: Attribute)
  {
    |a.path| == 1 && (a.path[0] == "opt" || a.path[0] == "flag")
  }

  /** The option attributes of a field in the order `from_field` visits them:
      last attribute first. */
  function VisitedAttrs(attrs: seq<Attribute>): seq<Attribute>
  {
    Reverse(Filter(attrs, IsOptAttr))
  }

  /** The options read from the option attributes among `attrs`, visiting them
      from the last to the first and stopping at the first error. */
  function OptsFromAttrs(field: Field, attrs: seq<Attribute>): Result<seq<Opt>, Error>
    decreases |attrs|
  {
    if |attrs| == 0 then Ok([])
    else
      var a := attrs[|attrs| - 1];
      var earlier := OptsFromAttrs(field, attrs[..|attrs| - 1]);
      if IsOptAttr(a) then
        match FromMeta(field, a)
        case Err(e) => Err(e)
        case Ok(o) => PrependOk([o], earlier)
      else earlier
  }

  /** What `Opt::from_field` computes: the options of the field, or one `Invalid`
      placeholder when it has no option attribute. */
  function FieldOpts(field: Field): Result<seq<Opt>, Error>
  {
    match OptsFromAttrs(field, field.attrs)
    case Ok(v) => if |v| == 0 then Ok([NewOpt(Invalid, field)]) else Ok(v)
    case Err(e) => Err(e)
  }

  /** `Opt::from_field`: walk the attributes backwards, read every `opt`/`flag`
      attribute into an option and abort the field on the first error. */
  method FromField(field: Field) returns (r: Result<seq<Opt>, Error>)
    ensures r == FieldOpts(field)
  {
    var attrs := field.attrs;
    var opts: seq<Opt> := [];
    var i := |attrs|;
    PrependOkNothing(OptsFromAttrs(field, attrs), opts);
    assert attrs[..i] == attrs;
    while i > 0
      invariant 0 <= i <= |attrs|
      invariant OptsFromAttrs(field, attrs) == PrependOk(opts, OptsFromAttrs(field, attrs[..i]))
    {
      var attr := attrs[i - 1];
      assert attrs[..i][..i - 1] == attrs[..i - 1] && attrs[..i][i - 1] == attr;
      assert OptsFromAttrs(field, attrs[..i]) ==
        if IsOptAttr(attr) then
          match FromMeta(field, attr)
          case Err(e) => Err(e)
          case Ok(o) => PrependOk([o], OptsFromAttrs(field, attrs[..i - 1]))
        else OptsFromAttrs(field, attrs[..i - 1]);
      if |attr.path| == 1 {
        var ident := attr.path[0];
        if ident == "opt" || ident == "flag" {
          var got := FromMeta(field, attr);
          if got.Err? {
            assert OptsFromAttrs(field, attrs) == Err(got.error);
            return Err(got.error);
          }
          var o := got.value;
          PrependOkTwice(opts, [o], OptsFromAttrs(field, attrs[..i - 1]));
          opts := opts + [o];
        }
      }
      i := i - 1;
    }
    assert attrs[..0] == [];
    PrependOkNothing(OptsFromAttrs(field, attrs), opts);
    assert OptsFromAttrs(field, field.attrs) == Ok(opts);
    if |opts| == 0 {
      opts := opts + [NewOpt(Invalid, field)];
      assert opts == [NewOpt(Invalid, field)];
    }
    r := Ok(opts);
    assert r == FieldOpts(field);
  }

  /** Reading a field's options as `Opt::from_meta` applied to each attribute in
      visiting order, stopping at the first error. */
  function FromMetaOf(field: Field): Attribute -> Result<Opt, Error>
  {
    a => FromMeta(field, a)
  }

  /** `from_field`'s loop is a fallible map over the visited attributes. */
  lemma {:induction false} OptsFromAttrsIsTryMap(field: Field, attrs: seq<Attribute>)
    ensures OptsFromAttrs(field, attrs) == TryMap(VisitedAttrs(attrs), FromMetaOf(field))
    decreases |attrs|
  {
    if |attrs| > 0 {
      var init, a := attrs[..|attrs| - 1], attrs[|attrs| - 1];
      assert attrs == init + [a];
      ReverseFilterSnoc(init, a, IsOptAttr);
      OptsFromAttrsIsTryMap(field, init);
      if IsOptAttr(a) {
        var vs := [a] + VisitedAttrs(init);
        assert VisitedAttrs(attrs) == vs;
        assert vs[0] == a && vs[1..] == VisitedAttrs(init);
        assert FromMetaOf(field)(a) == FromMeta(field, a);
        var f := FromMetaOf(field);
        match FromMeta(field, a)
        case Err(e) =>
          assert OptsFromAttrs(field, attrs) == Err(e);
          assert TryMap(vs, f) == Err(e);
        case Ok(o) =>
          assert OptsFromAttrs(field, attrs) == PrependOk([o], OptsFromAttrs(field, init));
          assert TryMap(vs, f) == PrependOk([o], TryMap(vs[1..], f));
      } else {
        assert VisitedAttrs(attrs) == [] + VisitedAttrs(init) == VisitedAttrs(init);
      }
    }
  }

  /** `from_field` yields one option per option attribute, in reverse attribute
      order, when every one of them reads. */
  lemma OptsFromAttrsInReverseOrder(field: Field, attrs: seq<Attribute>)
    ensures OptsFromAttrs(field, attrs).Ok? <==>
              forall k :: 0 <= k < |VisitedAttrs(attrs)| ==> FromMeta(field, VisitedAttrs(attrs)[k]).Ok?
    ensures OptsFromAttrs(field, attrs).Ok? ==>
              var v := OptsFromAttrs(field, attrs).value;
              |v| == |VisitedAttrs(attrs)| &&
              forall k :: 0 <= k < |v| ==> FromMeta(field, VisitedAttrs(attrs)[k]) == Ok(v[k])
    ensures OptsFromAttrs(field, attrs).Err? ==>
              exists k :: 0 <= k < |VisitedAttrs(attrs)| &&
                FromMeta(field, VisitedAttrs(attrs)[k]) == Err(OptsFromAttrs(field, attrs).error) &&
                forall j :: 0 <= j < k ==> FromMeta(field, VisitedAttrs(attrs)[j]).Ok?
  {
    OptsFromAttrsIsTryMap(field, attrs);
    TryMapOk(VisitedAttrs(attrs), FromMetaOf(field));
    if OptsFromAttrs(field, attrs).Err? {
      TryMapErr(VisitedAttrs(attrs), FromMetaOf(field));
    }
  }

  /** An option attribute names its own kind: `#[flag(...)]` gives a flag and
      `#[opt(...)]` a valued option, never an `Invalid` one. */
  lemma OptAttrKind(field: Field, a: Attribute)
    requires IsOptAttr(a) && FromMeta(field, a).Ok?
    ensures var o := FromMeta(field, a).value;
      && o.field == field && |o.names| > 0
      && (o.kind.Flag? <==> a.path[0] == "flag")
      && (o.kind.Valued? <==> a.path[0] == "opt")
      && !o.kind.Invalid?
  {
    var m := InterpretMeta(a).value;
    var attrs := TryMap(m.nested, AttrFromNested).value;
    ApplyAttrsLastWins(NewOpt(KindOf(m.ident), field), attrs);
  }

  /** A field without option attributes yields exactly one `Invalid` placeholder;
      otherwise no option of the field is `Invalid`, and each belongs to the field. */
  lemma FieldOptsPlaceholder(field: Field)
    ensures (forall a :: a in field.attrs ==> !IsOptAttr(a)) ==> FieldOpts(field) == Ok([NewOpt(Invalid, field)])
    ensures (exists a :: a in field.attrs && IsOptAttr(a)) && FieldOpts(field).Ok? ==>
              forall o :: o in FieldOpts(field).value ==> !o.kind.Invalid? && o.field == field
  {
    OptsFromAttrsInReverseOrder(field, field.attrs);
    var vs := VisitedAttrs(field.attrs);
    if exists a :: a in field.attrs && IsOptAttr(a) {
      var a :| a in field.attrs && IsOptAttr(a);
      FilterKeeps(field.attrs, IsOptAttr, a);
      assert |vs| > 0;
      if FieldOpts(field).Ok? {
        var v := OptsFromAttrs(field, field.attrs).value;
        forall k | 0 <= k < |v|
          ensures !v[k].kind.Invalid? && v[k].field == field
        {
          assert vs[k] in Filter(field.attrs, IsOptAttr);
          OptAttrKind(field, vs[k]);
        }
      }
    } else {
      FilterNone(field.attrs, IsOptAttr);
    }
  }

  // ================================================================ container attributes

  /** `OptContainerAttribute`: one item of `#[optcont(...)]`. */
  datatype OptContainerAttribute = Delimeters(text: string) | Usage(text: string) | DefaultParser(text: string)

  /** `OptContainerAttribute::from_meta`: only `delimeters`, `usage` and
      `default_parser` with a string literal are accepted. */
  function ContainerAttrFromMeta(meta: Meta): (r: Result<OptContainerAttribute, Error>)
    ensures r.Ok? <==> meta.NameValue? && meta.ident in {"delimeters", "usage", "default_parser"} && meta.lit.Str?
    ensures r.Ok? ==> r.value.text == meta.lit.s &&
                      (r.value.Delimeters? <==> meta.ident == "delimeters") &&
                      (r.value.Usage? <==> meta.ident == "usage")
    ensures r.Err? ==> r.error == if meta.NameValue? && meta.ident in {"delimeters", "usage", "default_parser"}
                                  then Error(ExpectedStringLiteral) else Error(ExpectedOneOfContainer)
  {
    match meta
    case NameValue(id, lit) =>
      (match id
       case "delimeters" => var s :- ExpectStr(lit); Ok(Delimeters(s))
       case "usage" => var s :- ExpectStr(lit); Ok(Usage(s))
       case "default_parser" => var s :- ExpectStr(lit); Ok(DefaultParser(s))
       case _ => Err(Error(ExpectedOneOfContainer)))
    case _ => Err(Error(ExpectedOneOfContainer))
  }

  function ContainerAttrFromNested(item: NestedMeta): Result<OptContainerAttribute, Error>
  {
    match item
    case MetaItem(m) => ContainerAttrFromMeta(m)
    case Literal(_) => Err(Error(ExpectedOneOfContainer))
  }

  /** `OptContainer::parse_meta_list`: every item read, stopping at the first bad one. */
  method ParseMetaList(nested: seq<NestedMeta>) returns (r: Result<seq<OptContainerAttribute>, Error>)
    ensures r == TryMap(nested, ContainerAttrFromNested)
  {
    var attrs: seq<OptContainerAttribute> := [];
    assert nested[0..] == nested;
    PrependOkNothing(TryMap(nested, ContainerAttrFromNested), attrs);
    for i := 0 to |nested|
      invariant TryMap(nested, ContainerAttrFromNested) == PrependOk(attrs, TryMap(nested[i..], ContainerAttrFromNested))
    {
      TryMapAt(nested, i, ContainerAttrFromNested);
      match nested[i]
      case MetaItem(m) =>
        var a :- ContainerAttrFromMeta(m);
        PrependOkTwice(attrs, [a], TryMap(nested[i + 1..], ContainerAttrFromNested));
        attrs := attrs + [a];
      case Literal(_) =>
        return Err(Error(ExpectedOneOfContainer));
    }
    assert nested[|nested|..] == [];
    PrependOkNothing(TryMap(nested, ContainerAttrFromNested), attrs);
    r := Ok(attrs);
  }

  /** `OptContainer::parse_meta`: `#[optcont(...)]` must carry a list. */
  function ParseMeta(attr: Attribute): (r: Result<seq<OptContainerAttribute>, Error>)
    ensures r.Ok? ==> InterpretMeta(attr).Some? && InterpretMeta(attr).value.List?
    ensures r.Ok? ==> |r.value| == |InterpretMeta(attr).value.nested|
    ensures InterpretMeta(attr).Some? && InterpretMeta(attr).value.List? ==>
              r == TryMap(InterpretMeta(attr).value.nested, ContainerAttrFromNested)
    ensures (InterpretMeta(attr).None? || !InterpretMeta(attr).value.List?) ==>
              r == Err(Error(InvalidContainerAttributes))
  {
    match InterpretMeta(attr)
    case Some(List(_, nested)) =>
      TryMapOk(nested, ContainerAttrFromNested);
      TryMap(nested, ContainerAttrFromNested)
    case _ => Err(Error(InvalidContainerAttributes))
  }

  predicate IsContainerAttr(a: Attribute)
  {
    |a.path| == 1 && a.path[0] == "optcont"
  }

  /** A container attribute that does not read. */
  predicate IsBadContainerAttr(a: Attribute)
  {
    IsContainerAttr(a) && ParseMeta(a).Err?
  }

  /** The settings read from every `optcont` attribute, and one error per
      attribute that does not read, both in attribute order. */
  function GatherContainerAttrs(attrs: seq<Attribute>): (seq<OptContainerAttribute>, seq<Error>)
    decreases |attrs|
  {
    if |attrs| == 0 then ([], [])
    else
      var (found, errors) := GatherContainerAttrs(attrs[..|attrs| - 1]);
      var a := attrs[|attrs| - 1];
      if IsContainerAttr(a) then
        match ParseMeta(a)
        case Ok(att) => (found + att, errors)
        case Err(e) => (found, errors + [e])
      else (found, errors)
  }

  /** What `OptContainer::parse_attrs` computes. */
  function ParsedAttrs(attrs: seq<Attribute>): Result<seq<OptContainerAttribute>, seq<Error>>
  {
    var (found, errors) := GatherContainerAttrs(attrs);
    if |errors| == 0 then Ok(found) else Err(errors)
  }

  /** `OptContainer::parse_attrs`: read every `optcont` attribute, gathering the
      settings of the good ones and the errors of the bad ones. */
  method ParseAttrs(attrs: seq<Attribute>) returns (r: Result<seq<OptContainerAttribute>, seq<Error>>)
    ensures r == ParsedAttrs(attrs)
  {
    var errors: seq<Error> := [];
    var result: seq<OptContainerAttribute> := [];
    for i := 0 to |attrs|
      invariant (result, errors) == GatherContainerAttrs(attrs[..i])
    {
      assert attrs[..i + 1][..i] == attrs[..i];
      var attr := attrs[i];
      if |attr.path| == 1 && attr.path[0] == "optcont" {
        var meta := InterpretMeta(attr);
        var parsed: Result<seq<OptContainerAttribute>, Error>;
        if meta.Some? && meta.value.List? {
          parsed := ParseMetaList(meta.value.nested);
        } else {
          parsed := Err(Error(InvalidContainerAttributes));
        }
        match parsed
        case Ok(att) => result := result + att;
        case Err(e) => errors := errors + [e];
      }
    }
    assert attrs[..|attrs|] == attrs;
    if |errors| == 0 {
      r := Ok(result);
    } else {
      r := Err(errors);
    }
  }

  /** `parse_attrs` reports every bad `optcont` attribute, not only the first:
      one error per bad attribute, in order, each the error that attribute gives. */
  lemma {:induction false} ParsedAttrsReportsEveryError(attrs: seq<Attribute>)
    ensures var errors := GatherContainerAttrs(attrs).1;
            var bad := Filter(attrs, IsBadContainerAttr);
            |errors| == |bad| && forall k :: 0 <= k < |bad| ==> ParseMeta(bad[k]) == Err(errors[k])
    ensures ParsedAttrs(attrs).Ok? <==> forall a :: a in attrs && IsContainerAttr(a) ==> ParseMeta(a).Ok?
    decreases |attrs|
  {
    if |attrs| > 0 {
      var init := attrs[..|attrs| - 1];
      ParsedAttrsReportsEveryError(init);
      var a := attrs[|attrs| - 1];
      assert forall x :: x in attrs <==> x in init || x == a;
      if !(forall x :: x in init && IsContainerAttr(x) ==> ParseMeta(x).Ok?) {
        var x :| x in init && IsBadContainerAttr(x);
        FilterKeeps(init, IsBadContainerAttr, x);
      }
    }
  }

  // ================================================================ container settings

  /** The settings of the container that `#[optcont(...)]` controls. */
  datatype Settings = Settings(delimeters: string, usage: string, defaultParser: Option<string>)

  /** The settings as `OptContainer::from_ast` starts them. */
  const InitialSettings := Settings("", "", None)

  /** The loop of `OptContainer::init_attrs`: each attribute overwrites its setting. */
  function Settle(s: Settings, attrs: seq<OptContainerAttribute>): Settings
    decreases |attrs|
  {
    if |attrs| == 0 then s
    else
      var s1 := match attrs[0]
        case Delimeters(d) => s.(delimeters := d)
        case Usage(u) => s.(usage := u)
        case DefaultParser(p) => s.(defaultParser := Some(p));
      Settle(s1, attrs[1..])
  }

  function DelimetersSet(a: OptContainerAttribute): Option<string>
  {
    if a.Delimeters? then Some(a.text) else None
  }

  function UsageSet(a: OptContainerAttribute): Option<string>
  {
    if a.Usage? then Some(a.text) else None
  }

  function DefaultParserSet(a: OptContainerAttribute): Option<string>
  {
    if a.DefaultParser? then Some(a.text) else None
  }

  /** Every container setting is the one given by the last attribute that sets it
      (the starting value when none does). */
  lemma {:induction false} SettleLastWins(s: Settings, attrs: seq<OptContainerAttribute>)
    ensures Settle(s, attrs).delimeters == LastOf(attrs, DelimetersSet).GetOr(s.delimeters)
    ensures Settle(s, attrs).usage == LastOf(attrs, UsageSet).GetOr(s.usage)
    ensures Settle(s, attrs).defaultParser == match LastOf(attrs, DefaultParserSet)
                                              case Some(p) => Some(p)
                                              case None => s.defaultParser
    decreases |attrs|
  {
    if |attrs| > 0 {
      var s1 := match attrs[0]
        case Delimeters(d) => s.(delimeters := d)
        case Usage(u) => s.(usage := u)
        case DefaultParser(p) => s.(defaultParser := Some(p));
      SettleLastWins(s1, attrs[1..]);
    }
  }

  // ================================================================ the container

  /** The options of all fields, in field order, and one error per field that does
      not read. */
  function FieldsOpts(fields: seq<Field>): (seq<Opt>, seq<Error>)
    decreases |fields|
  {
    if |fields| == 0 then ([], [])
    else
      var (opts, errors) := FieldsOpts(fields[..|fields| - 1]);
      match FieldOpts(fields[|fields| - 1])
      case Ok(v) => (opts + v, errors)
      case Err(e) => (opts, errors + [e])
  }

  predicate IsBadField(f: Field)
  {
    FieldOpts(f).Err?
  }

  /** `init_opts` reports every bad field, not only the first. */
  lemma {:induction false} FieldsOptsReportsEveryError(fields: seq<Field>)
    ensures var errors := FieldsOpts(fields).1;
            var bad := Filter(fields, IsBadField);
            |errors| == |bad| && forall k :: 0 <= k < |bad| ==> FieldOpts(bad[k]) == Err(errors[k])
    decreases |fields|
  {
    if |fields| > 0 {
      FieldsOptsReportsEveryError(fields[..|fields| - 1]);
    }
  }

  /** The container as a value: its settings and its options. */
  datatype Container = Container(settings: Settings, opts: seq<Opt>)

  /** What `OptContainer::from_ast` computes: options first (all field errors
      together), then the container attributes (all their errors together). */
  function ContainerOf(ast: DeriveInput): Result<Container, seq<Error>>
  {
    match ast.data
    case Enum => Err([Error(EnumsUnsupported)])
    case Union => Err([Error(UnionsUnsupported)])
    case Struct(fields) =>
      var (opts, errors) := FieldsOpts(fields);
      if |errors| > 0 then Err(errors)
      else match ParsedAttrs(ast.attrs)
        case Err(es) => Err(es)
        case Ok(attrs) => Ok(Container(Settle(InitialSettings, attrs), opts))
  }

  /** `OptContainer`: the state `from_ast` builds up in place. */
  class OptContainer {
    var delimeters: string
    var usage: string
    var defaultParser: Option<string>
    var opts: seq<Opt>
    const ast: DeriveInput

    function SettingsOf(): Settings
      reads this
    {
      Settings(delimeters, usage, defaultParser)
    }

    function Value(): Container
      reads this
    {
      Container(SettingsOf(), opts)
    }

    /** The initial state of `from_ast`. */
    constructor (ast: DeriveInput)
      ensures this.ast == ast && SettingsOf() == InitialSettings && opts == []
    {
      this.ast := ast;
      delimeters, usage, defaultParser, opts := "", "", None, [];
    }

    /** `init_opts`: append the options of every field; a field that does not read
        contributes its error instead. Enums and unions are rejected outright. */
    method InitOpts() returns (r: Result<(), seq<Error>>)
      modifies this
      ensures SettingsOf() == old(SettingsOf())
      ensures ast.data.Enum? ==> opts == old(opts) && r == Err([Error(EnumsUnsupported)])
      ensures ast.data.Union? ==> opts == old(opts) && r == Err([Error(UnionsUnsupported)])
      ensures ast.data.Struct? ==>
                var (found, errors) := FieldsOpts(ast.data.fields);
                opts == old(opts) + found && r == if |errors| == 0 then Ok(()) else Err(errors)
    {
      var fields: seq<Field>;
      match ast.data
      case Enum => return Err([Error(EnumsUnsupported)]);
      case Union => return Err([Error(UnionsUnsupported)]);
      case Struct(fs) => fields := fs;
      var errors: seq<Error> := [];
      assert opts == old(opts) + [];
      for i := 0 to |fields|
        invariant SettingsOf() == old(SettingsOf())
        invariant opts == old(opts) + FieldsOpts(fields[..i]).0
        invariant errors == FieldsOpts(fields[..i]).1
      {
        assert fields[..i + 1][..i] == fields[..i];
        var field := fields[i];
        var got := FromField(field);
        match got
        case Ok(found) => opts := opts + found;
        case Err(e) => errors := errors + [e];
      }
      assert fields[..|fields|] == fields;
      if |errors| == 0 {
        r := Ok(());
      } else {
        r := Err(errors);
      }
    }

    /** `init_attrs`: when every `optcont` attribute reads, apply their settings in
        order; otherwise change nothing and return all their errors. */
    method InitAttrs() returns (r: Result<(), seq<Error>>)
      modifies this
      ensures opts == old(opts)
      ensures match ParsedAttrs(ast.attrs)
              case Ok(attrs) => SettingsOf() == Settle(old(SettingsOf()), attrs) && r == Ok(())
              case Err(es) => SettingsOf() == old(SettingsOf()) && r == Err(es)
    {
      var parsed := ParseAttrs(ast.attrs);
      match parsed
      case Err(es) =>
        return Err(es);
      case Ok(attrs) =>
        assert attrs[0..] == attrs;
        for i := 0 to |attrs|
          invariant opts == old(opts)
          invariant Settle(old(SettingsOf()), attrs) == Settle(SettingsOf(), attrs[i..])
        {
          assert attrs[i..][0] == attrs[i] && attrs[i..][1..] == attrs[i + 1..];
          match attrs[i]
          case Delimeters(d) => delimeters := d;
          case Usage(u) => usage := u;
          case DefaultParser(p) => defaultParser := Some(p);
        }
        assert attrs[|attrs|..] == [];
        r := Ok(());
    }

    /** `build_set_opts` on the current options and default parser. */
    method BuildSetOpts() returns (r: Result<seq<SetOpt>, seq<Error>>)
      ensures r == SetOptsOf(defaultParser, opts)
    {
      var setOpts: seq<SetOpt> := [];
      var errors: seq<Error> := [];
      for i := 0 to |opts|
        invariant (setOpts, errors) == GatherSetOpts(defaultParser, opts[..i])
      {
        assert opts[..i + 1][..i] == opts[..i];
        var opt := opts[i];
        var name := FirstName(opt);
        match opt.kind
        case Flag =>
          setOpts := setOpts + [SetFlag(opt.field.ident, name)];
        case Valued(_, _) =>
          match OptParser(defaultParser, opt) {
            case Ok(parser) => setOpts := setOpts + [SetValue(opt.field.ident, name, parser)];
            case Err(e) => errors := errors + [e];
          }
        case Invalid =>
      }
      assert opts[..|opts|] == opts;
      if |errors| == 0 {
        r := Ok(setOpts);
      } else {
        r := Err(errors);
      }
    }
  }

  /** `OptContainer::from_ast`. */
  method FromAst(ast: DeriveInput) returns (r: Result<OptContainer, seq<Error>>)
    ensures r.Ok? ==> fresh(r.value) && r.value.ast == ast
    ensures match ContainerOf(ast)
            case Ok(c) => r.Ok? && r.value.Value() == c
            case Err(es) => r == Err(es)
  {
    var cont := new OptContainer(ast);
    var r1 := cont.InitOpts();
    if r1.Err? {
      return Err(r1.error);
    }
    var r2 := cont.InitAttrs();
    if r2.Err? {
      return Err(r2.error);
    }
    r := Ok(cont);
  }

  // ================================================================ generated code

  /** Which member of the runtime parser registers an option. */
  datatype Member = FlagMember | OptMember

  /** `parser.flag(&[names])` or `parser.opt(&[names])`. */
  datatype Registration = Registration(member: Member, names: seq<string>)

  /** An option the generated parser knows about. */
  predicate Registered(o: Opt)
  {
    !o.kind.Invalid?
  }

  function RegistrationFor(o: Opt): Registration
  {
    Registration(if o.kind.Flag? then FlagMember else OptMember, o.names)
  }

  /** `build_register_opts`: one registration per `Flag` or `Opt`, in order;
      `Invalid` options are skipped. */
  function BuildRegisterOpts(opts: seq<Opt>): (r: seq<Registration>)
    ensures |r| == |Filter(opts, Registered)|
    ensures forall k :: 0 <= k < |r| ==> r[k] == RegistrationFor(Filter(opts, Registered)[k])
    decreases |opts|
  {
    if |opts| == 0 then []
    else
      var o := opts[|opts| - 1];
      BuildRegisterOpts(opts[..|opts| - 1]) +
        match o.kind
        case Flag => [Registration(FlagMember, o.names)]
        case Valued(_, _) => [Registration(OptMember, o.names)]
        case Invalid => []
  }

  /** `opt_parser`: an option's own parser wins over the container's default;
      without either, or for anything but a valued option, there is none. */
  function OptParser(defaultParser: Option<string>, opt: Opt): (r: Result<string, Error>)
    ensures r.Ok? <==> opt.kind.Valued? && (opt.kind.parser.Some? || defaultParser.Some?)
    ensures r.Ok? && opt.kind.parser.Some? ==> r.value == opt.kind.parser.value
    ensures r.Ok? && opt.kind.parser.None? ==> r.value == defaultParser.value
    ensures r.Err? ==> r.error == Error(NoParserFound)
  {
    if opt.kind.Valued? && opt.kind.parser.Some? then Ok(opt.kind.parser.value)
    else if opt.kind.Valued? && defaultParser.Some? then Ok(defaultParser.value)
    else Err(Error(NoParserFound))
  }

  /** The assignment of the parse result to a field: a flag sets the field to
      true, a valued option feeds every entry to its parser. */
  datatype SetOpt =
    | SetFlag(field: Option<string>, name: string)
    | SetValue(field: Option<string>, name: string, parser: string)

  /** The name an option is looked up by: its first name, or "" without one. */
  function FirstName(o: Opt): string
  {
    if |o.names| > 0 then o.names[0] else ""
  }

  /** The loop of `build_set_opts`: the assignments, and one error per valued
      option without a parser, both in option order. */
  function GatherSetOpts(defaultParser: Option<string>, opts: seq<Opt>): (seq<SetOpt>, seq<Error>)
    decreases |opts|
  {
    if |opts| == 0 then ([], [])
    else SetOptStep(defaultParser, GatherSetOpts(defaultParser, opts[..|opts| - 1]), opts[|opts| - 1])
  }

  /** One iteration of the loop of `build_set_opts`. */
  function SetOptStep(defaultParser: Option<string>, acc: (seq<SetOpt>, seq<Error>), o: Opt): (seq<SetOpt>, seq<Error>)
  {
    match o.kind
    case Flag => (acc.0 + [SetFlag(o.field.ident, FirstName(o))], acc.1)
    case Valued(_, _) =>
      (match OptParser(defaultParser, o)
       case Ok(p) => (acc.0 + [SetValue(o.field.ident, FirstName(o), p)], acc.1)
       case Err(e) => (acc.0, acc.1 + [e]))
    case Invalid => acc
  }

  /** What `build_set_opts` computes. */
  function SetOptsOf(defaultParser: Option<string>, opts: seq<Opt>): Result<seq<SetOpt>, seq<Error>>
  {
    var (sets, errors) := GatherSetOpts(defaultParser, opts);
    if |errors| == 0 then Ok(sets) else Err(errors)
  }

  /** A valued option that names no parser of its own. */
  predicate LacksOwnParser(o: Opt)
  {
    o.kind.Valued? && o.kind.parser.None?
  }

  /** `build_set_opts` reports every option it cannot find a parser for: none when
      the container has a default parser, else one per valued option without its
      own parser. */
  lemma {:induction false} SetOptsErrors(defaultParser: Option<string>, opts: seq<Opt>)
    ensures var errors := GatherSetOpts(defaultParser, opts).1;
            && (defaultParser.Some? ==> errors == [])
            && (defaultParser.None? ==> |errors| == |Filter(opts, LacksOwnParser)| &&
                                        forall e :: e in errors ==> e == Error(NoParserFound))
    decreases |opts|
  {
    if |opts| > 0 {
      SetOptsErrors(defaultParser, opts[..|opts| - 1]);
    }
  }

  /** An assignment that belongs to a registration: of the same sort (flag or
      valued) and looked up by the first registered name. */
  predicate Assigns(s: SetOpt, reg: Registration)
  {
    (s.SetFlag? <==> reg.member == FlagMember) &&
    s.name == (if |reg.names| > 0 then reg.names[0] else "")
  }

  /** When `build_set_opts` succeeds, it holds one assignment per registration
      that `build_register_opts` emits, in the same order. */
  lemma {:induction false} SetOptsMatchRegistrations(defaultParser: Option<string>, opts: seq<Opt>)
    requires SetOptsOf(defaultParser, opts).Ok?
    ensures var sets := SetOptsOf(defaultParser, opts).value;
            var regs := BuildRegisterOpts(opts);
            |sets| == |regs| && forall k :: 0 <= k < |sets| ==> Assigns(sets[k], regs[k])
    ensures AssignsOwnFields(defaultParser, SetOptsOf(defaultParser, opts).value, Filter(opts, Registered))
    decreases |opts|
  {
    SetOptsFollowOptions(defaultParser, opts);
    if |opts| > 0 {
      var init := opts[..|opts| - 1];
      var o := opts[|opts| - 1];
      var (sets0, errors0) := GatherSetOpts(defaultParser, init);
      assert |errors0| <= |GatherSetOpts(defaultParser, opts).1|;
      SetOptsMatchRegistrations(defaultParser, init);
      var regs0 := BuildRegisterOpts(init);
      var sets := SetOptsOf(defaultParser, opts).value;
      var regs := BuildRegisterOpts(opts);
      match o.kind {
        case Flag =>
          assert sets == sets0 + [SetFlag(o.field.ident, FirstName(o))];
          assert regs == regs0 + [Registration(FlagMember, o.names)];
        case Valued(_, _) =>
          var p := OptParser(defaultParser, o).value;
          assert sets == sets0 + [SetValue(o.field.ident, FirstName(o), p)];
          assert regs == regs0 + [Registration(OptMember, o.names)];
        case Invalid =>
          assert sets == sets0 && regs == regs0;
      }
    }
  }

  /** The k-th assignment is that of the k-th registered option: it writes that
      option's own field, looks it up by its first name, and a valued option
      parses with the parser `opt_parser` chose for it. */
  predicate AssignsOwnFields(defaultParser: Option<string>, sets: seq<SetOpt>, fs: seq<Opt>)
  {
    |sets| == |fs| &&
    forall k :: 0 <= k < |sets| ==>
      && sets[k].field == fs[k].field.ident
      && sets[k].name == FirstName(fs[k])
      && (sets[k].SetFlag? <==> fs[k].kind.Flag?)
      && (sets[k].SetValue? ==> OptParser(defaultParser, fs[k]) == Ok(sets[k].parser))
  }

  /** When `build_set_opts` succeeds, each assignment uses the field, the first
      name and the chosen parser of the registered option it comes from. */
  lemma {:induction false} SetOptsFollowOptions(defaultParser: Option<string>, opts: seq<Opt>)
    requires SetOptsOf(defaultParser, opts).Ok?
    ensures AssignsOwnFields(defaultParser, SetOptsOf(defaultParser, opts).value, Filter(opts, Registered))
    decreases |opts|
  {
    if |opts| > 0 {
      var init := opts[..|opts| - 1];
      var o := opts[|opts| - 1];
      var (sets0, errors0) := GatherSetOpts(defaultParser, init);
      assert |errors0| <= |GatherSetOpts(defaultParser, opts).1|;
      SetOptsFollowOptions(defaultParser, init);
      var fs0 := Filter(init, Registered);
      var sets := SetOptsOf(defaultParser, opts).value;
      var fs := Filter(opts, Registered);
      match o.kind {
        case Flag =>
          assert sets == sets0 + [SetFlag(o.field.ident, FirstName(o))];
          assert fs == fs0 + [o];
        case Valued(_, _) =>
          var p := OptParser(defaultParser, o).value;
          assert sets == sets0 + [SetValue(o.field.ident, FirstName(o), p)];
          assert fs == fs0 + [o];
        case Invalid =>
          assert sets == sets0 && fs == fs0;
      }
    }
  }

  /** `build_set_opts` ignores `Invalid` options: dropping them changes nothing. */
  lemma {:induction false} SetOptsIgnoreInvalid(defaultParser: Option<string>, opts: seq<Opt>)
    ensures GatherSetOpts(defaultParser, Filter(opts, Registered)) == GatherSetOpts(defaultParser, opts)
    decreases |opts|
  {
    if |opts| > 0 {
      var init := opts[..|opts| - 1];
      var o := opts[|opts| - 1];
      SetOptsIgnoreInvalid(defaultParser, init);
      var fi := Filter(init, Registered);
      if Registered(o) {
        var f := fi + [o];
        assert Filter(opts, Registered) == f;
        assert f[..|f| - 1] == fi && f[|f| - 1] == o;
        assert GatherSetOpts(defaultParser, f) == SetOptStep(defaultParser, GatherSetOpts(defaultParser, fi), o);
      } else {
        assert Filter(opts, Registered) == fi;
        assert SetOptStep(defaultParser, GatherSetOpts(defaultParser, init), o) == GatherSetOpts(defaultParser, init);
      }
    }
  }

  // ---------------------------------------------------------------- help text

  /** The column at which descriptions start. */
  const DescOffset := 30

  /** `n` spaces. */
  function Spaces(n: nat): (r: string)
    ensures |r| == n && forall i :: 0 <= i < n ==> r[i] == ' '
  {
    seq(n, _ => ' ')
  }

  /** The number of bytes `c` takes in UTF-8, which is how Rust's `String::len`
      counts. */
  function Utf8Width(c: char): nat
  {
    if c as int < 0x80 then 1 else if c as int < 0x800 then 2 else if c as int < 0x10000 then 3 else 4
  }

  /** `String::len`: the length in UTF-8 bytes. */
  function Utf8Len(s: string): nat
  {
    if |s| == 0 then 0 else Utf8Len(s[..|s| - 1]) + Utf8Width(s[|s| - 1])
  }

  lemma {:induction false} Utf8LenAppend(a: string, b: string)
    ensures Utf8Len(a + b) == Utf8Len(a) + Utf8Len(b)
    decreases |b|
  {
    if |b| > 0 {
      assert (a + b)[..|a + b| - 1] == a + b[..|b| - 1];
      Utf8LenAppend(a, b[..|b| - 1]);
    } else {
      assert a + b == a;
    }
  }

  /** Spaces are one byte each. */
  lemma {:induction false} Utf8LenSpaces(n: nat)
    ensures Utf8Len(Spaces(n)) == n
  {
    if n > 0 {
      assert Spaces(n)[..n - 1] == Spaces(n - 1);
      Utf8LenSpaces(n - 1);
    }
  }

  /** The delimiter shown between a name and its value: the first configured
      delimiter, or a space. */
  function HelpDelim(delimeters: string): (c: char)
    ensures |delimeters| > 0 ==> c == delimeters[0]
    ensures |delimeters| == 0 ==> c == ' '
  {
    if |delimeters| > 0 then delimeters[0] else ' '
  }

  /** Each name as listed in the help: with the delimiter and the value
      description after it for a valued option. */
  function HelpNames(opt: Opt, delim: char): (r: seq<string>)
    ensures |r| == |opt.names|
  {
    var suffix := if opt.kind.Valued? then [delim] + opt.kind.valueDesc else "";
    seq(|opt.names|, i requires 0 <= i < |opt.names| => opt.names[i] + suffix)
  }

  /** The start of an option's help entry. */
  function HelpHeader(opt: Opt, delim: char): string
  {
    "  " + Join(HelpNames(opt, delim), ", ")
  }

  predicate IsNonEmpty(line: string)
  {
    |line| > 0
  }

  /** The description lines that `opt_help` prints: the non-empty ones. */
  function DescLines(desc: string): seq<string>
  {
    Filter(Split(desc, '\n'), IsNonEmpty)
  }

  /** Lines after the first: each on a new line indented to the description column. */
  function Indented(lines: seq<string>): string
  {
    if |lines| == 0 then "" else "\n" + Spaces(DescOffset) + lines[0] + Indented(lines[1..])
  }

  /** The description part of an entry whose header is `headerLen` bytes long: the
      first line padded to the description column when the header leaves room,
      else on its own indented line like the others. */
  function DescBlock(headerLen: nat, lines: seq<string>): string
  {
    if |lines| == 0 then ""
    else
      (if headerLen < DescOffset then Spaces(DescOffset - headerLen) else "\n" + Spaces(DescOffset)) +
      lines[0] + Indented(lines[1..])
  }

  /** The layout `opt_help` produces for one option. */
  function HelpEntry(opt: Opt, delim: char): string
  {
    var header := HelpHeader(opt, delim);
    header + DescBlock(Utf8Len(header), DescLines(opt.desc)) + "\n"
  }

  lemma {:induction false} IndentedSnoc(lines: seq<string>, l: string)
    ensures Indented(lines + [l]) == Indented(lines) + "\n" + Spaces(DescOffset) + l
    decreases |lines|
  {
    if |lines| > 0 {
      assert (lines + [l])[1..] == lines[1..] + [l];
      IndentedSnoc(lines[1..], l);
    } else {
      assert Indented([l]) == "\n" + Spaces(DescOffset) + l + Indented([]);
    }
  }

  /** What goes before description line number `shown` (counting from 0). */
  function DescPad(headerLen: nat, shown: nat): string
  {
    if shown == 0 && headerLen < DescOffset then Spaces(DescOffset - headerLen)
    else "\n" + Spaces(DescOffset)
  }

  lemma DescBlockSnoc(headerLen: nat, lines: seq<string>, l: string)
    ensures DescBlock(headerLen, lines + [l]) == DescBlock(headerLen, lines) + DescPad(headerLen, |lines|) + l
  {
    var pad := DescPad(headerLen, 0);
    assert pad == if headerLen < DescOffset then Spaces(DescOffset - headerLen) else "\n" + Spaces(DescOffset);
    var all := lines + [l];
    assert all[0] == if |lines| > 0 then lines[0] else l;
    if |lines| > 0 {
      assert all[1..] == lines[1..] + [l];
      IndentedSnoc(lines[1..], l);
      var rest := Indented(lines[1..]);
      var step := "\n" + Spaces(DescOffset);
      assert DescPad(headerLen, |lines|) == step;
      calc {
        DescBlock(headerLen, all);
        pad + lines[0] + Indented(lines[1..] + [l]);
        pad + lines[0] + (rest + step + l);
        (pad + lines[0] + rest) + step + l;
      }
    } else {
      assert all[1..] == [];
      assert DescBlock(headerLen, all) == pad + l + "";
    }
  }

  /** One non-empty description line appended the way `opt_help` does it extends
      the description block by that line. */
  lemma DescLineStep(header: string, shown: seq<string>, line: string, help: string, isFirst: bool)
    requires help == header + DescBlock(Utf8Len(header), shown)
    requires isFirst <==> |shown| == 0
    ensures (if isFirst && Utf8Len(help) < DescOffset then help + Spaces(DescOffset - Utf8Len(help))
             else help + "\n" + Spaces(DescOffset)) + line ==
            header + DescBlock(Utf8Len(header), shown + [line])
  {
    var h := Utf8Len(header);
    var pad := DescPad(h, |shown|);
    assert (if isFirst && Utf8Len(help) < DescOffset then help + Spaces(DescOffset - Utf8Len(help))
            else help + "\n" + Spaces(DescOffset)) == help + pad by {
      if isFirst {
        assert DescBlock(h, shown) == "";
        assert help == header;
      }
    }
    assert header + DescBlock(h, shown + [line]) == help + pad + line by {
      DescBlockSnoc(h, shown, line);
      ConcatAssoc(header, DescBlock(h, shown), pad, line);
    }
  }

  /** The first loop of `opt_help`: two spaces, then the names separated by
      commas, each followed by the delimiter and value description when the option
      takes a value. */
  method WriteHelpHeader(opt: Opt, delim: char) returns (help: string)
    ensures help == HelpHeader(opt, delim)
  {
    var names := HelpNames(opt, delim);
    help := "  ";
    for i := 0 to |opt.names|
      invariant help == "  " + Join(names[..i], ", ")
    {
      ghost var before := help;
      ghost var sep := if i > 0 then ", " else "";
      HeaderSnoc(names, i, before);
      if i > 0 {
        help := help + ", ";
      }
      assert help == before + sep;
      help := help + opt.names[i];
      if opt.kind.Valued? {
        help := help + [delim];
        help := help + opt.kind.valueDesc;
        ConcatAssoc3(before + sep + opt.names[i], [delim], opt.kind.valueDesc);
        ConcatAssoc3(before + sep, opt.names[i], [delim] + opt.kind.valueDesc);
      } else {
        assert names[i] == opt.names[i] + "";
      }
      assert help == before + sep + names[i];
    }
    assert names[..|opt.names|] == names;
  }

  /** One more name in the header: the separator, then the name. */
  lemma HeaderSnoc(names: seq<string>, i: nat, before: string)
    requires i < |names| && before == "  " + Join(names[..i], ", ")
    ensures "  " + Join(names[..i + 1], ", ") == before + (if i > 0 then ", " else "") + names[i]
  {
    assert names[..i + 1] == names[..i] + [names[i]];
    JoinSnoc(names[..i], names[i], ", ");
    if i > 0 {
      ConcatAssoc3("  " + Join(names[..i], ", "), ", ", names[i]);
      ConcatAssoc3("  ", Join(names[..i], ", "), ", " + names[i]);
      ConcatAssoc3("  ", Join(names[..i], ", ") + ", ", names[i]);
    } else {
      assert before == "  ";
    }
  }

  /** `opt_help`: the names, then the description lines, then a line break. */
  method OptHelp(opt: Opt, delim: char) returns (help: string)
    ensures help == HelpEntry(opt, delim)
  {
    help := WriteHelpHeader(opt, delim);
    var header := help;
    var lines := Split(opt.desc, '\n');
    var isFirst := true;
    for j := 0 to |lines|
      invariant help == header + DescBlock(Utf8Len(header), Filter(lines[..j], IsNonEmpty))
      invariant isFirst <==> |Filter(lines[..j], IsNonEmpty)| == 0
    {
      var line := lines[j];
      ghost var shown := Filter(lines[..j], IsNonEmpty);
      if |line| == 0 {
        assert Filter(lines[..j + 1], IsNonEmpty) == shown by {
          FilterPrefixStep(lines, j, IsNonEmpty);
          assert shown + [] == shown;
        }
        continue;
      }
      assert Filter(lines[..j + 1], IsNonEmpty) == shown + [line] by {
        FilterPrefixStep(lines, j, IsNonEmpty);
      }
      DescLineStep(header, shown, line, help, isFirst);
      var helpLen := Utf8Len(help);
      if isFirst && helpLen < DescOffset {
        help := help + Spaces(DescOffset - helpLen);
      } else {
        help := help + "\n" + Spaces(DescOffset);
      }
      help := help + line;
      isFirst := false;
    }
    assert lines[..|lines|] == lines;
    help := help + "\n";
  }

  /** The layout of an entry with any header and description lines: the header,
      then the first line at the description column (padded when the header
      leaves room, on a new indented line otherwise), then a final line break. */
  lemma EntryLayout(header: string, lines: seq<string>)
    ensures var e := header + DescBlock(Utf8Len(header), lines) + "\n";
            && |e| > 0 && e[|e| - 1] == '\n' && e[..|header|] == header
            && (|lines| > 0 && Utf8Len(header) < DescOffset ==>
                  var pad := DescOffset - Utf8Len(header);
                  && e[..|header| + pad] == header + Spaces(pad)
                  && Utf8Len(e[..|header| + pad]) == DescOffset
                  && e[|header| + pad..] == lines[0] + Indented(lines[1..]) + "\n")
            && (|lines| > 0 && Utf8Len(header) >= DescOffset ==>
                  e[|header|..] == "\n" + Spaces(DescOffset) + lines[0] + Indented(lines[1..]) + "\n")
  {
    var h := Utf8Len(header);
    EntryEnds(header, h, lines);
    if |lines| > 0 {
      if h < DescOffset {
        var pad := DescOffset - h;
        EntryPadded(header, h, lines);
        Utf8LenAppend(header, Spaces(pad));
        Utf8LenSpaces(pad);
      } else {
        EntryUnpadded(header, h, lines);
      }
    }
  }

  lemma EntryEnds(header: string, h: nat, lines: seq<string>)
    ensures var e := header + DescBlock(h, lines) + "\n";
            |e| > 0 && e[|e| - 1] == '\n' && e[..|header|] == header
  {
    var block := DescBlock(h, lines);
    assert (header + block + "\n")[..|header|] == header;
  }

  lemma EntryPadded(header: string, h: nat, lines: seq<string>)
    requires |lines| > 0 && h < DescOffset
    ensures var e := header + DescBlock(h, lines) + "\n";
            var pad := DescOffset - h;
            && e[..|header| + pad] == header + Spaces(pad)
            && e[|header| + pad..] == lines[0] + Indented(lines[1..]) + "\n"
  {
    var pad := DescOffset - h;
    var rest := lines[0] + Indented(lines[1..]) + "\n";
    assert header + DescBlock(h, lines) + "\n" == header + Spaces(pad) + rest by {
      assert DescBlock(h, lines) == Spaces(pad) + lines[0] + Indented(lines[1..]);
    }
    ConcatParts(header, Spaces(pad), rest);
  }

  lemma EntryUnpadded(header: string, h: nat, lines: seq<string>)
    requires |lines| > 0 && h >= DescOffset
    ensures var e := header + DescBlock(h, lines) + "\n";
            e[|header|..] == "\n" + Spaces(DescOffset) + lines[0] + Indented(lines[1..]) + "\n"
  {
    var block := DescBlock(h, lines);
    assert block == "\n" + Spaces(DescOffset) + lines[0] + Indented(lines[1..]);
    assert (header + block + "\n")[|header|..] == block + "\n";
  }

  /** The first description line starts exactly at the description column when
      the header is shorter than it; every later line starts on a new line after
      exactly that many spaces; and the entry always ends with a line break. */
  lemma HelpEntryLayout(opt: Opt, delim: char)
    ensures var e := HelpEntry(opt, delim);
            var header := HelpHeader(opt, delim);
            var lines := DescLines(opt.desc);
            && |e| > 0 && e[|e| - 1] == '\n'
            && e[..|header|] == header && header[..2] == "  "
            && (|lines| > 0 && Utf8Len(header) < DescOffset ==>
                  var pad := DescOffset - Utf8Len(header);
                  && e[..|header| + pad] == header + Spaces(pad)
                  && Utf8Len(e[..|header| + pad]) == DescOffset
                  && e[|header| + pad..] == lines[0] + Indented(lines[1..]) + "\n")
            && (|lines| > 0 && Utf8Len(header) >= DescOffset ==>
                  e[|header|..] == "\n" + Spaces(DescOffset) + lines[0] + Indented(lines[1..]) + "\n")
  {
    var header := HelpHeader(opt, delim);
    assert HelpEntry(opt, delim) == header + DescBlock(Utf8Len(header), DescLines(opt.desc)) + "\n";
    EntryLayout(header, DescLines(opt.desc));
    assert header[..2] == "  ";
  }

  /** Empty description lines are dropped: removing them from the description
      leaves the help entry as it was. */
  lemma HelpEntryIgnoresEmptyLines(opt: Opt, delim: char)
    ensures HelpEntry(opt.(desc := Join(DescLines(opt.desc), "\n")), delim) == HelpEntry(opt, delim)
  {
    var lines := DescLines(opt.desc);
    SplitPiecesFree(opt.desc, '\n');
    forall k | 0 <= k < |lines|
      ensures '\n' !in lines[k] && |lines[k]| > 0
    {
      assert lines[k] in Split(opt.desc, '\n');
    }
    SplitJoinLines(lines);
  }

  /** Splitting lines that are non-empty and hold no line break, after joining
      them, gives them back. */
  lemma {:induction false} SplitJoinLines(lines: seq<string>)
    requires forall k :: 0 <= k < |lines| ==> '\n' !in lines[k] && |lines[k]| > 0
    ensures DescLines(Join(lines, "\n")) == lines
  {
    if |lines| > 0 {
      SplitJoin(lines, '\n');
      FilterAll(lines, IsNonEmpty);
    } else {
      assert Split(Join(lines, "\n"), '\n') == [""];
      assert Filter([""], IsNonEmpty) == Filter([], IsNonEmpty) + [];
    }
  }

  /** `build_help_fn`: the text `help()` returns. */
  function HelpText(usage: string, delimeters: string, opts: seq<Opt>): string
  {
    "Usage: " + usage + "\nOptions:\n" + HelpEntries(opts, HelpDelim(delimeters)) + "\n"
  }

  /** The entries of all options, in order. */
  function HelpEntries(opts: seq<Opt>, delim: char): string
    decreases |opts|
  {
    if |opts| == 0 then "" else HelpEntries(opts[..|opts| - 1], delim) + HelpEntry(opts[|opts| - 1], delim)
  }

  /** The entries, when there are any, end with a line break. */
  lemma HelpEntriesEnd(opts: seq<Opt>, delim: char)
    ensures var body := HelpEntries(opts, delim);
            |body| > 0 ==> body[|body| - 1] == '\n'
  {
    if |opts| > 0 {
      var last := HelpEntry(opts[|opts| - 1], delim);
      assert |last| > 0 && last[|last| - 1] == '\n' by {
        HelpEntryLayout(opts[|opts| - 1], delim);
      }
      var body := HelpEntries(opts, delim);
      assert body == HelpEntries(opts[..|opts| - 1], delim) + last;
      assert body[|body| - 1] == last[|last| - 1];
    }
  }

  /** A heading ending in a line break, a body ending in one (or empty) and a
      final line break make a text that ends with an empty line. */
  lemma FramedText(head: string, body: string)
    requires |head| > 0 && head[|head| - 1] == '\n'
    requires |body| > 0 ==> body[|body| - 1] == '\n'
    ensures var t := head + body + "\n";
            |t| >= |head| + 1 && t[..|head|] == head && t[|t| - 2..] == "\n\n"
  {
    var t := head + body + "\n";
    if |body| > 0 {
      assert t[|t| - 2] == body[|body| - 1];
    } else {
      assert t[|t| - 2] == head[|head| - 1];
    }
    assert t[|t| - 2..] == [t[|t| - 2], t[|t| - 1]];
  }

  /** The help text starts with the usage line and the options heading, and ends
      with an empty line, whatever the options are. */
  lemma HelpTextShape(usage: string, delimeters: string, opts: seq<Opt>)
    ensures var t := HelpText(usage, delimeters, opts);
            var head := "Usage: " + usage + "\nOptions:\n";
            |t| >= |head| + 1 && t[..|head|] == head && t[|t| - 2..] == "\n\n"
  {
    var head := "Usage: " + usage + "\nOptions:\n";
    var body := HelpEntries(opts, HelpDelim(delimeters));
    HelpEntriesEnd(opts, HelpDelim(delimeters));
    assert head[|head| - 1] == '\n';
    FramedText(head, body);
  }

  /** The generated `parse` function: the delimiters it hands to the runtime
      parser, the registrations, then the field assignments. */
  datatype ParseFn = ParseFn(delimeters: string, registrations: seq<Registration>, setOpts: seq<SetOpt>)

  /** The generated `impl CmdLineOptions for <struct>`. */
  datatype CmdLineOptionsImpl = CmdLineOptionsImpl(structName: string, help: string, parse: ParseFn)

  /** `build_parse_fn`. */
  function BuildParseFn(c: Container): (r: Result<ParseFn, seq<Error>>)
    ensures r.Ok? <==> SetOptsOf(c.settings.defaultParser, c.opts).Ok?
    ensures r.Err? ==> r == Err(SetOptsOf(c.settings.defaultParser, c.opts).error)
    ensures r.Ok? ==> && r.value.delimeters == c.settings.delimeters
                      && |r.value.registrations| == |Filter(c.opts, Registered)|
                      && |r.value.setOpts| == |r.value.registrations|
                      && forall k :: 0 <= k < |r.value.setOpts| ==> Assigns(r.value.setOpts[k], r.value.registrations[k])
    ensures r.Ok? ==> r.value.registrations == BuildRegisterOpts(c.opts) &&
                      r.value.setOpts == SetOptsOf(c.settings.defaultParser, c.opts).value
  {
    match SetOptsOf(c.settings.defaultParser, c.opts)
    case Err(es) => Err(es)
    case Ok(sets) =>
      SetOptsMatchRegistrations(c.settings.defaultParser, c.opts);
      Ok(ParseFn(c.settings.delimeters, BuildRegisterOpts(c.opts), sets))
  }

  /** What `expand_derive_cmd_line_options` computes. */
  function Expansion(ast: DeriveInput): Result<CmdLineOptionsImpl, seq<Error>>
  {
    match ContainerOf(ast)
    case Err(es) => Err(es)
    case Ok(c) =>
      if !ast.data.Struct? then Err([])
      else match BuildParseFn(c)
        case Err(es) => Err(es)
        case Ok(p) => Ok(CmdLineOptionsImpl(ast.ident, HelpText(c.settings.usage, c.settings.delimeters, c.opts), p))
  }

  /** `expand_derive_cmd_line_options`: build the container, then the help and
      parse functions. */
  method ExpandDeriveCmdLineOptions(ast: DeriveInput) returns (r: Result<CmdLineOptionsImpl, seq<Error>>)
    ensures r == Expansion(ast)
  {
    var made := FromAst(ast);
    if made.Err? {
      return Err(made.error);
    }
    var cont := made.value;
    if !ast.data.Struct? {
      return Err([]);
    }
    var help := HelpText(cont.usage, cont.delimeters, cont.opts);
    var sets := cont.BuildSetOpts();
    if sets.Err? {
      return Err(sets.error);
    }
    r := Ok(CmdLineOptionsImpl(ast.ident, help, ParseFn(cont.delimeters, BuildRegisterOpts(cont.opts), sets.value)));
  }

  /** The macro never fails silently: every rejection carries at least one error,
      and only a struct is ever accepted. */
  lemma ExpansionErrorsNonEmpty(ast: DeriveInput)
    ensures Expansion(ast).Err? ==> |Expansion(ast).error| > 0
    ensures Expansion(ast).Ok? ==> ast.data.Struct?
  {
  }
}
