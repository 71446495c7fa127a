/**
 * The card schema validator: turns untyped values into cards, collecting a
 * path-tagged error for every check that fails.
 *
 * The source threads one mutable `errors` array through every parse step and
 * each step pushes onto it.  Here each step returns the errors it pushed, in
 * push order, beside its value; a caller appends them after its own earlier
 * errors, so the concatenation is exactly the shared array's final contents.
 */
module Schema {
  import opened Wrappers
  import opened JsonValue
  import Symbols
  import Numerals
  import TextLines

  datatype ValidationError = ValidationError(cardId: string, path: string, expected: string, received: string)

  datatype ValidationResult<T> = Success(value: T) | Failure(errors: seq<ValidationError>)

  /** The value a parse step returns (None for `null`) and the errors it pushed. */
  datatype Parsed<T> = Parsed(value: Option<T>, errors: seq<ValidationError>)

  /** The survivors of a `map(...).filter(x !== null)` pass and the errors pushed along the way. */
  datatype Collected<T> = Collected(kept: seq<T>, errors: seq<ValidationError>)

  /** A parsed frame: the schema's own output shape, an id and the valid symbols. */
  datatype Frame = Frame(id: string, symbols: seq<Json>)

  datatype CardType = Ability | Movement | Rotation

  /** What `parseBaseCard` returns; `cardType` is the raw value after `?? 'ability'`. */
  datatype CardBase = CardBase(
    id: string, cardType: Json, name: string, art: Option<string>, priority: int,
    rotationAllowance: int, timeline: seq<Frame>, activeText: Option<string>, passiveText: Option<string>)

  datatype Card = Card(
    id: string, cardType: CardType, name: string, art: Option<string>, priority: int,
    rotationAllowance: int, timeline: seq<Frame>, activeText: Option<string>, passiveText: Option<string>,
    damage: Option<int>, knockbackFactor: Option<int>)

  /** `addError`: the error records the received value's type name. */
  function MakeError(cardId: string, path: string, expected: string, v: Json): ValidationError
  {
    ValidationError(cardId, path, expected, GetType(v))
  }

  const Directions: seq<string> := ["F", "FL", "FR", "B", "BL", "BR"]
  const AttackPatterns: seq<string> := ["frontArc", "adjacent", "custom"]
  const CardTypeNames: seq<string> := ["ability", "movement", "rotation"]

  predicate IsDirection(v: Json)
  {
    v.Str? && v.s in Directions
  }

  predicate IsMoveParams(v: Json)
  {
    IsObject(v) && IsDirection(Get(v, "direction")) && IsNumber(Get(v, "distance"))
  }

  predicate IsBlockParams(v: Json)
  {
    IsObject(v) && IsDirection(Get(v, "edge"))
  }

  predicate IsOffset(v: Json)
  {
    IsObject(v) && IsNumber(Get(v, "q")) && IsNumber(Get(v, "r"))
  }

  predicate IsAttackParams(v: Json)
  {
    if !IsObject(v) || !IsString(Get(v, "pattern")) || Get(v, "pattern").s !in AttackPatterns then false
    else if Get(v, "offsets") == Undefined then true
    else if !Get(v, "offsets").Arr? then false
    else forall k :: 0 <= k < |Get(v, "offsets").items| ==> IsOffset(Get(v, "offsets").items[k])
  }

  /** `validateSymbolParams`: the parameter shape each symbol id demands. */
  predicate ValidateSymbolParams(id: Symbols.SymbolId, params: Json)
    decreases if id == Symbols.WithText then 3 else 0
  {
    match id
    case Wait | TextActive | TextPassive | Concentration | Combo | Refresh => params == Undefined
    case Move | Jump => IsMoveParams(params)
    case Attack | Charge => IsAttackParams(params)
    case Block => IsBlockParams(params)
    case WithText => IsWithTextParams(params)
  }

  /** A known symbol other than WITH_TEXT, with valid parameters. */
  predicate IsBaseSymbolInstance(v: Json)
    decreases 1
  {
    if !IsObject(v) || !IsString(Get(v, "id")) || !Symbols.IsSymbolId(Get(v, "id").s) then false
    else if Get(v, "id").s == "WITH_TEXT" then false
    else ValidateSymbolParams(Symbols.Lookup(Get(v, "id").s).value, Get(v, "params"))
  }

  predicate IsWithTextParams(v: Json)
    decreases 2
  {
    IsObject(v) && (Get(v, "kind") == Str("active") || Get(v, "kind") == Str("passive"))
    && IsBaseSymbolInstance(Get(v, "inner"))
  }

  /** The symbol id a value names, when it names a registered one. */
  function SymbolIdOf(v: Json): Option<Symbols.SymbolId>
  {
    if IsObject(v) && IsString(Get(v, "id")) then Symbols.Lookup(Get(v, "id").s) else None
  }

  /** A value parseSymbol accepts: an object naming a registered symbol with valid parameters. */
  predicate ValidSymbol(v: Json)
  {
    SymbolIdOf(v).Some? && ValidateSymbolParams(SymbolIdOf(v).value, Get(v, "params"))
  }

  /** `parseSymbol`: the first failing check pushes one error and yields null; success yields the value itself. */
  function ParseSymbol(v: Json, cardId: string, path: string): (r: Parsed<Json>)
    ensures r.value.Some? <==> ValidSymbol(v)
    ensures r.value.Some? ==> r.value.value == v && r.errors == []
    ensures r.value.None? ==> |r.errors| == 1 && r.errors[0].cardId == cardId
    ensures r.value.None? && !IsObject(v) ==> r.errors == [MakeError(cardId, path, "symbol object", v)]
    ensures IsObject(v) && !IsString(Get(v, "id")) ==>
      r.errors == [MakeError(cardId, path + ".id", "string", Get(v, "id"))]
    ensures IsObject(v) && IsString(Get(v, "id")) && !Symbols.IsSymbolId(Get(v, "id").s) ==>
      r.errors == [MakeError(cardId, path + ".id", "known symbol id", Get(v, "id"))]
    ensures r.value.None? && IsObject(v) && IsString(Get(v, "id")) && Symbols.IsSymbolId(Get(v, "id").s) ==>
      r.errors == [MakeError(cardId, path + ".params", Get(v, "id").s + " params", Get(v, "params"))]
  {
    if !IsObject(v) then Parsed(None, [MakeError(cardId, path, "symbol object", v)])
    else if !IsString(Get(v, "id")) then Parsed(None, [MakeError(cardId, path + ".id", "string", Get(v, "id"))])
    else if !Symbols.IsSymbolId(Get(v, "id").s) then
      Parsed(None, [MakeError(cardId, path + ".id", "known symbol id", Get(v, "id"))])
    else if !ValidateSymbolParams(Symbols.Lookup(Get(v, "id").s).value, Get(v, "params")) then
      Parsed(None, [MakeError(cardId, path + ".params", Get(v, "id").s + " params", Get(v, "params"))])
    else Parsed(Some(v), [])
  }

  function TimelinePath(index: nat): string
  {
    "timeline[" + Numerals.NatToString(index) + "]"
  }

  /** The valid symbols of a list, in their original order. */
  function ValidSymbols(items: seq<Json>): (kept: seq<Json>)
    ensures |kept| <= |items|
    ensures forall x :: x in kept <==> x in items && ValidSymbol(x)
  {
    if items == [] then []
    else if ValidSymbol(items[0]) then [items[0]] + ValidSymbols(items[1..])
    else ValidSymbols(items[1..])
  }

  /** Each valid item is kept as often as it occurs, and nothing else is kept. */
  lemma {:induction false} ValidSymbolsMultiplicity(items: seq<Json>, x: Json)
    ensures multiset(ValidSymbols(items))[x] == if ValidSymbol(x) then multiset(items)[x] else 0
  {
    if items != [] {
      ValidSymbolsMultiplicity(items[1..], x);
      assert items == [items[0]] + items[1..];
    }
  }

  /**
   * The symbols of one frame from position `from` on: every symbol is parsed
   * (so every invalid one pushes its error), and the valid ones are kept in order.
   */
  function ParseSymbols(items: seq<Json>, cardId: string, framePath: string, from: nat): (r: Collected<Json>)
    requires from <= |items|
    ensures |r.kept| + |r.errors| == |items| - from
    ensures forall k :: 0 <= k < |r.kept| ==> ValidSymbol(r.kept[k])
    ensures r.errors == [] <==> forall k :: from <= k < |items| ==> ValidSymbol(items[k])
    ensures r.errors == [] ==> r.kept == items[from..]
    ensures r.kept == ValidSymbols(items[from..])
    decreases |items| - from
  {
    if from == |items| then Collected([], [])
    else
      var p := ParseSymbol(items[from], cardId, framePath + ".symbols[" + Numerals.NatToString(from) + "]");
      var rest := ParseSymbols(items, cardId, framePath, from + 1);
      assert items[from..][1..] == items[from + 1..];
      var kept := if p.value.Some? then [items[from]] + rest.kept else rest.kept;
      Collected(kept, p.errors + rest.errors)
  }

  /** A frame value that parses without pushing any error. */
  predicate ValidFrame(v: Json)
  {
    IsObject(v) && IsString(Get(v, "id")) && Get(v, "symbols").Arr?
    && forall k :: 0 <= k < |Get(v, "symbols").items| ==> ValidSymbol(Get(v, "symbols").items[k])
  }

  /** The frame a valid frame value parses to. */
  function FrameOf(v: Json): Frame
    requires ValidFrame(v)
  {
    Frame(Get(v, "id").s, Get(v, "symbols").items)
  }

  /**
   * `parseFrame`: a non-object frame or a non-array `symbols` yields null; a
   * missing id is reported but defaulted to `frame-<index>`.
   */
  function ParseFrame(v: Json, cardId: string, index: nat): (r: Parsed<Frame>)
    ensures r.errors == [] <==> ValidFrame(v)
    ensures r.value.None? <==> !IsObject(v) || !Get(v, "symbols").Arr?
    ensures !IsObject(v) ==> r.errors == [MakeError(cardId, TimelinePath(index), "frame object", v)]
    ensures r.value.Some? ==>
      var syms := Get(v, "symbols").items;
      && (forall k :: 0 <= k < |r.value.value.symbols| ==> ValidSymbol(r.value.value.symbols[k]))
      && r.value.value.symbols == ValidSymbols(syms)
      && |r.value.value.symbols| <= |syms|
      && r.value.value.id == (if IsString(Get(v, "id")) then Get(v, "id").s else "frame-" + Numerals.NatToString(index))
    ensures r.errors == [] ==> ValidFrame(v) && r.value == Some(FrameOf(v))
  {
    var path := TimelinePath(index);
    if !IsObject(v) then Parsed(None, [MakeError(cardId, path, "frame object", v)])
    else
      var idErrors := if !IsString(Get(v, "id")) then [MakeError(cardId, path + ".id", "string", Get(v, "id"))] else [];
      var symbols := Get(v, "symbols");
      if !symbols.Arr? then Parsed(None, idErrors + [MakeError(cardId, path + ".symbols", "array", symbols)])
      else
        var parsed := ParseSymbols(symbols.items, cardId, path, 0);
        var id := if IsString(Get(v, "id")) then Get(v, "id").s else "frame-" + Numerals.NatToString(index);
        Parsed(Some(Frame(id, parsed.kept)), idErrors + parsed.errors)
  }

  /** The frames of a timeline from position `from` on, nulls filtered out. */
  function ParseFrames(items: seq<Json>, cardId: string, from: nat): (r: Collected<Frame>)
    requires from <= |items|
    ensures |r.kept| <= |items| - from
    ensures r.errors == [] <==> forall k :: from <= k < |items| ==> ValidFrame(items[k])
    ensures r.errors == [] ==> |r.kept| == |items| - from
    decreases |items| - from
  {
    if from == |items| then Collected([], [])
    else
      var p := ParseFrame(items[from], cardId, from);
      var rest := ParseFrames(items, cardId, from + 1);
      var kept := if p.value.Some? then [p.value.value] + rest.kept else rest.kept;
      Collected(kept, p.errors + rest.errors)
  }

  /** `kept` lists, in order, the frames described by the items from position `from` on. */
  predicate FramesOf(items: seq<Json>, from: nat, kept: seq<Frame>)
  {
    && from + |kept| <= |items|
    && forall i :: from <= i < from + |kept| ==> ValidFrame(items[i]) && kept[i - from] == FrameOf(items[i])
  }

  lemma FramesOfCons(items: seq<Json>, from: nat, rest: seq<Frame>)
    requires from < |items| && ValidFrame(items[from]) && FramesOf(items, from + 1, rest)
    ensures FramesOf(items, from, [FrameOf(items[from])] + rest)
  {
    var kept := [FrameOf(items[from])] + rest;
    forall i | from <= i < from + |kept|
      ensures ValidFrame(items[i]) && kept[i - from] == FrameOf(items[i])
    {
      if i > from {
        assert kept[i - from] == rest[i - (from + 1)];
      }
    }
  }

  /** Without errors every frame is kept, in order, as the frame it describes. */
  lemma {:induction false} ParseFramesKept(items: seq<Json>, cardId: string, from: nat)
    requires from <= |items|
    requires ParseFrames(items, cardId, from).errors == []
    ensures FramesOf(items, from, ParseFrames(items, cardId, from).kept)
    decreases |items| - from
  {
    if from < |items| {
      var p := ParseFrame(items[from], cardId, from);
      var restParsed := ParseFrames(items, cardId, from + 1);
      assert ParseFrames(items, cardId, from).errors == p.errors + restParsed.errors;
      assert p.errors == [] && restParsed.errors == [];
      ParseFramesKept(items, cardId, from + 1);
      assert ParseFrames(items, cardId, from).kept == [FrameOf(items[from])] + restParsed.kept;
      FramesOfCons(items, from, restParsed.kept);
    }
  }

  function ErrorIf(failed: bool, e: ValidationError): seq<ValidationError>
  {
    if failed then [e] else []
  }

  function OptionalString(v: Json): Option<string>
  {
    if IsString(v) then Some(v.s) else None
  }

  /** The card id used in error records: the card's own id when it is a string. */
  function CardIdOf(v: Json): string
  {
    if IsString(Get(v, "id")) then Get(v, "id").s else "unknown"
  }

  /** The errors `parseBaseCard` pushes for the top-level fields of an object card, in check order. */
  function BaseFieldErrors(v: Json): seq<ValidationError>
  {
    var cardId := CardIdOf(v);
    ErrorIf(!IsString(Get(v, "id")), MakeError(cardId, "id", "string", Get(v, "id")))
    + ErrorIf(!IsString(Get(v, "name")), MakeError(cardId, "name", "string", Get(v, "name")))
    + ErrorIf(!(Get(v, "cardType").Str? && Get(v, "cardType").s in CardTypeNames),
              MakeError(cardId, "cardType", "ability | movement | rotation", Get(v, "cardType")))
    + ErrorIf(!IsNumber(Get(v, "priority")), MakeError(cardId, "priority", "number", Get(v, "priority")))
    + ErrorIf(!IsNumber(Get(v, "rotationAllowance")),
              MakeError(cardId, "rotationAllowance", "number", Get(v, "rotationAllowance")))
    + ErrorIf(!Get(v, "timeline").Arr?, MakeError(cardId, "timeline", "array", Get(v, "timeline")))
  }

  /** `parseBaseCard`. */
  function ParseBaseCard(v: Json): (r: Parsed<CardBase>)
    ensures r.value.None? <==> !IsObject(v)
    ensures !IsObject(v) ==> r.errors == [MakeError("unknown", "card", "object", v)]
    ensures r.value.Some? ==> r.value.value.id == CardIdOf(v)
  {
    if !IsObject(v) then Parsed(None, [MakeError("unknown", "card", "object", v)])
    else
      var cardId := CardIdOf(v);
      var timeline := Get(v, "timeline");
      var frames := if timeline.Arr? then ParseFrames(timeline.items, cardId, 0) else Collected([], []);
      var cardType := if Get(v, "cardType") == Undefined || Get(v, "cardType") == Null then Str("ability")
                      else Get(v, "cardType");
      var base := CardBase(
        cardId, cardType,
        if IsString(Get(v, "name")) then Get(v, "name").s else "Unknown",
        OptionalString(Get(v, "art")),
        if IsNumber(Get(v, "priority")) then Get(v, "priority").n else 0,
        if IsNumber(Get(v, "rotationAllowance")) then Get(v, "rotationAllowance").n else 0,
        frames.kept,
        OptionalString(Get(v, "activeText")),
        OptionalString(Get(v, "passiveText")));
      Parsed(Some(base), BaseFieldErrors(v) + frames.errors)
  }

  function OptionalNumber(v: Json): Option<int>
  {
    if IsNumber(v) then Some(v.n) else None
  }

  /** `parseCard`: success exactly when no error was pushed. */
  function ParseCard(v: Json): (r: ValidationResult<Card>)
    ensures r.Failure? ==> r.errors != []
  {
    var b := ParseBaseCard(v);
    if b.value.None? then Failure(b.errors)
    else
      var base := b.value.value;
      var cardId := base.id;
      if base.cardType == Str("ability") then
        var errors := b.errors
          + ErrorIf(!IsObject(v) || !IsNumber(Get(v, "damage")),
                    MakeError(cardId, "damage", "number", if IsObject(v) then Get(v, "damage") else v))
          + ErrorIf(!IsObject(v) || !IsNumber(Get(v, "knockbackFactor")),
                    MakeError(cardId, "knockbackFactor", "number", if IsObject(v) then Get(v, "knockbackFactor") else v));
        if errors != [] then Failure(errors)
        else Success(Card(base.id, Ability, base.name, base.art, base.priority, base.rotationAllowance, base.timeline,
                          base.activeText, base.passiveText,
                          Some(Get(v, "damage").n), Some(Get(v, "knockbackFactor").n)))
      else if base.cardType == Str("movement") || base.cardType == Str("rotation") then
        if b.errors != [] then Failure(b.errors)
        else Success(Card(base.id, if base.cardType == Str("movement") then Movement else Rotation,
                          base.name, base.art, base.priority, base.rotationAllowance, base.timeline,
                          base.activeText, base.passiveText,
                          OptionalNumber(Get(v, "damage")), OptionalNumber(Get(v, "knockbackFactor"))))
      else
        Failure(b.errors + [MakeError(cardId, "cardType", "ability | movement | rotation", base.cardType)])
  }

  /** A card value that parses without error: the independent statement of what the schema demands. */
  predicate ValidCard(v: Json)
  {
    && IsObject(v)
    && IsString(Get(v, "id"))
    && IsString(Get(v, "name"))
    && Get(v, "cardType").Str? && Get(v, "cardType").s in CardTypeNames
    && IsNumber(Get(v, "priority"))
    && IsNumber(Get(v, "rotationAllowance"))
    && Get(v, "timeline").Arr?
    && (forall k :: 0 <= k < |Get(v, "timeline").items| ==> ValidFrame(Get(v, "timeline").items[k]))
    && (Get(v, "cardType") == Str("ability") ==> IsNumber(Get(v, "damage")) && IsNumber(Get(v, "knockbackFactor")))
  }

  function CardTypeName(t: CardType): string
  {
    match t
    case Ability => "ability"
    case Movement => "movement"
    case Rotation => "rotation"
  }

  /** The base parse of an object card pushes nothing exactly when its top-level fields and frames are valid. */
  lemma ParseBaseCardClean(v: Json)
    requires IsObject(v)
    ensures var b := ParseBaseCard(v);
      b.errors == [] <==>
        && IsString(Get(v, "id")) && IsString(Get(v, "name"))
        && Get(v, "cardType").Str? && Get(v, "cardType").s in CardTypeNames
        && IsNumber(Get(v, "priority")) && IsNumber(Get(v, "rotationAllowance")) && Get(v, "timeline").Arr?
        && (forall k :: 0 <= k < |Get(v, "timeline").items| ==> ValidFrame(Get(v, "timeline").items[k]))
    ensures var b := ParseBaseCard(v);
      b.errors == [] ==>
        var frames := Get(v, "timeline").items;
        && b.value.value.cardType == Get(v, "cardType")
        && b.value.value.id == Get(v, "id").s && b.value.value.name == Get(v, "name").s
        && b.value.value.priority == Get(v, "priority").n
        && b.value.value.rotationAllowance == Get(v, "rotationAllowance").n
        && |b.value.value.timeline| == |frames|
        && (forall k :: 0 <= k < |frames| ==> b.value.value.timeline[k] == FrameOf(frames[k]))
  {
    var b := ParseBaseCard(v);
    assert b.errors == BaseFieldErrors(v) + (if Get(v, "timeline").Arr? then ParseFrames(Get(v, "timeline").items, CardIdOf(v), 0).errors else []);
    if b.errors == [] {
      ParseFramesKept(Get(v, "timeline").items, CardIdOf(v), 0);
      assert FramesOf(Get(v, "timeline").items, 0, b.value.value.timeline);
    }
  }

  /** A card parses exactly when it is valid. */
  lemma ParseCardSucceedsIffValid(v: Json)
    ensures ParseCard(v).Success? <==> ValidCard(v)
  {
    if IsObject(v) {
      ParseBaseCardClean(v);
    }
  }

  /** A parsed card carries the input's scalar fields unchanged. */
  lemma ParsedCardFields(v: Json)
    requires ParseCard(v).Success?
    ensures var c := ParseCard(v).value;
      && Get(v, "id") == Str(c.id) && Get(v, "name") == Str(c.name)
      && Get(v, "cardType") == Str(CardTypeName(c.cardType))
      && Get(v, "priority") == Num(c.priority) && Get(v, "rotationAllowance") == Num(c.rotationAllowance)
      && (c.cardType == Ability ==>
            Get(v, "damage") == Num(c.damage.value) && Get(v, "knockbackFactor") == Num(c.knockbackFactor.value))
  {
    ParseBaseCardClean(v);
  }

  /** An optional field is present in the output exactly when the input holds a value of its kind there, and then it is that value. */
  predicate KeptOptionalString(field: Json, out: Option<string>)
  {
    (out.Some? <==> field.Str?) && (out.Some? ==> field == Str(out.value))
  }

  predicate KeptOptionalNumber(field: Json, out: Option<int>)
  {
    (out.Some? <==> field.Num?) && (out.Some? ==> field == Num(out.value))
  }

  /**
   * A parsed card's optional texts are the input's strings, and a movement or
   * rotation card's optional damage and knockback are the input's numbers.
   */
  lemma ParsedCardOptionalFields(v: Json)
    requires ParseCard(v).Success?
    ensures var c := ParseCard(v).value;
      && KeptOptionalString(Get(v, "art"), c.art)
      && KeptOptionalString(Get(v, "activeText"), c.activeText)
      && KeptOptionalString(Get(v, "passiveText"), c.passiveText)
      && (c.cardType != Ability ==>
            KeptOptionalNumber(Get(v, "damage"), c.damage) && KeptOptionalNumber(Get(v, "knockbackFactor"), c.knockbackFactor))
  {
  }

  /** A parsed card's timeline is the input's, frame by frame: no frame and no symbol was dropped. */
  lemma ParsedCardTimeline(v: Json)
    requires ParseCard(v).Success?
    ensures var c := ParseCard(v).value;
      && Get(v, "timeline") == Arr(Get(v, "timeline").items)
      && |c.timeline| == |Get(v, "timeline").items|
      && (forall k :: 0 <= k < |c.timeline| ==> c.timeline[k] == FrameOf(Get(v, "timeline").items[k]))
  {
    ParseBaseCardClean(v);
  }

  /** Symbols that take no parameters are accepted only when `params` is absent. */
  lemma ParameterlessSymbols(id: Symbols.SymbolId, params: Json)
    requires id in {Symbols.Wait, Symbols.TextActive, Symbols.TextPassive, Symbols.Concentration, Symbols.Combo, Symbols.Refresh}
    ensures ValidateSymbolParams(id, params) <==> params == Undefined
  {
  }

  /** Every other symbol demands parameters: an absent `params` is rejected. */
  lemma ParameterizedSymbolsNeedParams(id: Symbols.SymbolId)
    requires id in {Symbols.Move, Symbols.Jump, Symbols.Attack, Symbols.Charge, Symbols.Block, Symbols.WithText}
    ensures !ValidateSymbolParams(id, Undefined)
  {
  }

  /**
   * Move parameters name one of the six directions and a finite distance.  An
   * array passes the object test but carries no named fields, so it is rejected.
   */
  lemma MoveParamsFields(v: Json)
    ensures IsMoveParams(v) ==> v.Obj? && Get(v, "direction").Str? && Get(v, "direction").s in Directions && Get(v, "distance").Num?
    ensures Get(v, "distance").NonFinite? ==> !IsMoveParams(v)
    ensures v.Arr? ==> !IsMoveParams(v)
  {
  }

  /** Block parameters name one of the six directions as the blocked edge; an array is rejected. */
  lemma BlockParamsFields(v: Json)
    ensures IsBlockParams(v) ==> v.Obj? && Get(v, "edge").Str? && Get(v, "edge").s in Directions
    ensures v.Arr? ==> !IsBlockParams(v)
  {
  }

  /**
   * Attack offsets are optional: with a known pattern, absent offsets and an
   * empty list are accepted, and anything else but a list is rejected.
   */
  lemma AttackOffsetsOptional(v: Json)
    requires v.Obj? && Get(v, "pattern").Str? && Get(v, "pattern").s in AttackPatterns
    ensures Get(v, "offsets") == Undefined ==> IsAttackParams(v)
    ensures Get(v, "offsets") == Arr([]) ==> IsAttackParams(v)
    ensures Get(v, "offsets") != Undefined && !Get(v, "offsets").Arr? ==> !IsAttackParams(v)
  {
  }

  /** A base symbol instance is exactly a valid symbol that is not WITH_TEXT. */
  lemma BaseInstanceIsValidSymbol(v: Json)
    ensures IsBaseSymbolInstance(v) <==> ValidSymbol(v) && SymbolIdOf(v) != Some(Symbols.WithText)
  {
    if IsObject(v) && IsString(Get(v, "id")) && Symbols.IsSymbolId(Get(v, "id").s) {
      Symbols.LookupName(Symbols.WithText);
      assert Get(v, "id").s == "WITH_TEXT" <==> Symbols.Lookup(Get(v, "id").s) == Some(Symbols.WithText);
    }
  }

  /**
   * A valid WITH_TEXT symbol wraps a valid symbol that is not itself
   * WITH_TEXT, so wrappers never nest.
   */
  lemma WithTextDoesNotNest(v: Json)
    requires ValidSymbol(v) && SymbolIdOf(v) == Some(Symbols.WithText)
    ensures var params := Get(v, "params");
      && IsObject(params)
      && (Get(params, "kind") == Str("active") || Get(params, "kind") == Str("passive"))
      && ValidSymbol(Get(params, "inner"))
      && SymbolIdOf(Get(params, "inner")).Some?
      && SymbolIdOf(Get(params, "inner")).value != Symbols.WithText
  {
    var inner := Get(Get(v, "params"), "inner");
    assert IsBaseSymbolInstance(inner);
    assert Get(inner, "id").s != "WITH_TEXT";
  }

  /** A non-object card fails with exactly one error naming the unknown card. */
  lemma NonObjectCardFails(v: Json)
    requires !IsObject(v)
    ensures ParseCard(v) == Failure([ValidationError("unknown", "card", "object", GetType(v))])
  {
  }

  /** The errors of failed results, concatenated in order. */
  function AllErrors<T>(results: seq<ValidationResult<T>>): seq<ValidationError>
  {
    if results == [] then []
    else
      var last := results[|results| - 1];
      AllErrors(results[..|results| - 1]) + (if last.Failure? then last.errors else [])
  }

  lemma {:induction false} AllErrorsEmpty<T>(results: seq<ValidationResult<T>>)
    requires forall k :: 0 <= k < |results| ==> results[k].Failure? ==> results[k].errors != []
    ensures AllErrors(results) == [] <==> forall k :: 0 <= k < |results| ==> results[k].Success?
  {
    if results != [] {
      var init := results[..|results| - 1];
      AllErrorsEmpty(init);
      assert forall k :: 0 <= k < |init| ==> init[k] == results[k];
    }
  }

  /** Each value's own parse, in input order. */
  function ParseEach(values: seq<Json>): (rs: seq<ValidationResult<Card>>)
    ensures |rs| == |values|
    ensures forall k :: 0 <= k < |rs| ==> rs[k].Failure? ==> rs[k].errors != []
  {
    if values == [] then [] else ParseEach(values[..|values| - 1]) + [ParseCard(values[|values| - 1])]
  }

  lemma {:induction false} ParseEachAt(values: seq<Json>, k: nat)
    requires k < |values|
    ensures ParseEach(values)[k] == ParseCard(values[k])
  {
    if k < |values| - 1 {
      ParseEachAt(values[..|values| - 1], k);
    }
  }

  lemma ParseEachSnoc(values: seq<Json>, i: nat)
    requires i < |values|
    ensures ParseEach(values[..i + 1]) == ParseEach(values[..i]) + [ParseCard(values[i])]
  {
    assert values[..i + 1][..i] == values[..i];
  }

  lemma AllErrorsSnoc<T>(done: seq<ValidationResult<T>>, result: ValidationResult<T>)
    ensures AllErrors(done + [result]) == AllErrors(done) + (if result.Failure? then result.errors else [])
  {
    assert (done + [result])[..|done|] == done;
  }

  /** The values of the successful results, in order. */
  function Successes<T>(results: seq<ValidationResult<T>>): seq<T>
  {
    if results == [] then []
    else
      var last := results[|results| - 1];
      Successes(results[..|results| - 1]) + (if last.Success? then [last.value] else [])
  }

  lemma SuccessesSnoc<T>(done: seq<ValidationResult<T>>, result: ValidationResult<T>)
    ensures Successes(done + [result]) == Successes(done) + (if result.Success? then [result.value] else [])
  {
    assert (done + [result])[..|done|] == done;
  }

  lemma {:induction false} SuccessesAll<T>(results: seq<ValidationResult<T>>)
    requires forall k :: 0 <= k < |results| ==> results[k].Success?
    ensures |Successes(results)| == |results|
    ensures forall k :: 0 <= k < |results| ==> results[k] == Success(Successes(results)[k])
  {
    if results != [] {
      var init := results[..|results| - 1];
      assert forall k :: 0 <= k < |init| ==> init[k] == results[k];
      SuccessesAll(init);
    }
  }

  /** `parseCards`: all cards in order when every card parses, otherwise every card's errors in order. */
  method ParseCards(values: seq<Json>) returns (r: ValidationResult<seq<Card>>)
    ensures r.Success? <==> forall k :: 0 <= k < |values| ==> ParseEach(values)[k].Success?
    ensures r.Success? ==> |r.value| == |values|
    ensures r.Success? ==> forall k :: 0 <= k < |values| ==> ParseEach(values)[k] == Success(r.value[k])
    ensures r.Failure? ==> r.errors == AllErrors(ParseEach(values)) && r.errors != []
  {
    var parsedCards: seq<Card> := [];
    var errors: seq<ValidationError> := [];
    ghost var results: seq<ValidationResult<Card>> := [];
    var i := 0;
    while i < |values|
      invariant 0 <= i <= |values|
      invariant results == ParseEach(values[..i])
      invariant errors == AllErrors(results)
      invariant parsedCards == Successes(results)
    {
      var result := ParseCard(values[i]);
      ParseEachSnoc(values, i);
      AllErrorsSnoc(results, result);
      SuccessesSnoc(results, result);
      results := results + [result];
      if result.Success? {
        parsedCards := parsedCards + [result.value];
      } else {
        errors := errors + result.errors;
      }
      i := i + 1;
    }
    assert values[..i] == values;
    AllErrorsEmpty(results);
    if errors != [] {
      return Failure(errors);
    }
    SuccessesAll(results);
    return Success(parsedCards);
  }

  /** The schema's own `formatValidationErrors`: one line per error, joined by '\n'. */
  function FormatValidationErrors(errors: seq<ValidationError>): string
  {
    TextLines.JoinLines(seq(|errors|, k requires 0 <= k < |errors| =>
      "[" + errors[k].cardId + "] " + errors[k].path + " expected " + errors[k].expected + ", got " + errors[k].received))
  }
}
