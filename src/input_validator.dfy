/** The request-validation middleware (`backend/src/middleware/inputValidator.js`):
    rules that return an error message or nothing, and `validate`, which
    runs a schema of rules over the merged request data and either answers
    400 with one detail per failing field or passes the request on.

    A rule's result is `None` for `null` and `Some(message)` otherwise; a
    rule given by the caller may return an empty message, which counts as
    no error wherever the source tests the result for truthiness. */
module InputValidator {
  import opened Wrappers
  import opened Text
  import opened JsValues
  import ConfigValidator

  /** A validator as a schema holds it: a value in, an error or nothing out. */
  type Check = JsValue -> Option<string>

  /** What `if (error)` accepts as an error. */
  predicate Reported(e: Option<string>)
  {
    e.Some? && e.value != ""
  }

  // ---------------------------------------------------------------------------
  // Device ids

  predicate DeviceIdChar(c: char)
  {
    '0' <= c <= '9' || 'a' <= c <= 'z' || 'A' <= c <= 'Z' || c == '-' || c == '_'
  }

  /** `validationRules.deviceId` */
  function DeviceId(value: JsValue): (r: Option<string>)
    ensures r.None? <==> value.Str? && 1 <= |value.s| <= 100 && forall i :: 0 <= i < |value.s| ==> DeviceIdChar(value.s[i])
    ensures r.Some? ==> r.value != ""
  {
    if !Truthy(value) || TypeOf(value) != "string" then Some("设备ID不能为空且必须是字符串")
    else if Trim(value.s) == "" then
      BlankHasSpace(value.s);
      Some("设备ID不能为空")
    else if |value.s| > 100 then Some("设备ID长度不能超过100个字符")
    else if !(forall i :: 0 <= i < |value.s| ==> DeviceIdChar(value.s[i])) then Some("设备ID只能包含字母、数字、连字符和下划线")
    else None
  }

  /** A non-empty string that trims to nothing starts with white space. */
  lemma BlankHasSpace(s: string)
    requires s != [] && Trim(s) == []
    ensures JsSpace(s[0])
  {
  }

  /** The messages come in the source's order: a blank id is reported as
      blank, not as holding bad characters. */
  lemma BlankDeviceIdMessage(s: string)
    requires s != [] && forall i :: 0 <= i < |s| ==> s[i] == ' '
    ensures DeviceId(Str(s)) == Some("设备ID不能为空")
  {
    assert TrimStart(s) == [] by {
      TrimStartAllSpace(s);
    }
  }

  lemma {:induction false} TrimStartAllSpace(s: string)
    requires forall i :: 0 <= i < |s| ==> JsSpace(s[i])
    ensures TrimStart(s) == []
    decreases |s|
  {
    if s != [] {
      TrimStartAllSpace(s[1..]);
    }
  }

  // ---------------------------------------------------------------------------
  // IPv4 addresses

  /** One octet of the source's pattern: `25[0-5]`, `2[0-4][0-9]` or
      `[01]?[0-9][0-9]?`. */
  predicate OctetPattern(p: string)
  {
    (|p| == 3 && p[0] == '2' && p[1] == '5' && '0' <= p[2] <= '5')
    || (|p| == 3 && p[0] == '2' && '0' <= p[1] <= '4' && IsDigit(p[2]))
    || (|p| == 1 && IsDigit(p[0]))
    || (|p| == 2 && IsDigit(p[0]) && IsDigit(p[1]))
    || (|p| == 3 && (p[0] == '0' || p[0] == '1') && IsDigit(p[1]) && IsDigit(p[2]))
  }

  /** The pattern's octets are exactly the one- to three-digit numbers up
      to 255, leading zeros allowed. */
  lemma OctetPatternIsByte(p: string)
    ensures OctetPattern(p) <==> 1 <= |p| <= 3 && AllDigits(p) && DigitsValue(p) <= 255
  {
    if 1 <= |p| <= 3 && AllDigits(p) {
      var d0, d1, d2 := p[0] as int - '0' as int, 0, 0;
      assert DigitsValue(p[..1]) == d0 by {
        assert p[..1][..0] == [];
      }
      if |p| >= 2 {
        d1 := p[1] as int - '0' as int;
        assert DigitsValue(p[..2]) == d0 * 10 + d1 by {
          assert p[..2][..1] == p[..1];
        }
      }
      if |p| == 3 {
        d2 := p[2] as int - '0' as int;
        assert p[..3] == p;
        assert DigitsValue(p) == (d0 * 10 + d1) * 10 + d2 by {
          assert p[..2] == p[..|p| - 1];
        }
      } else if |p| == 2 {
        assert p[..2] == p;
      } else {
        assert p[..1] == p;
      }
    }
  }

  /** The whole pattern: four octets separated by dots. An octet holds no
      dot, so the dots split the address into its octets. */
  predicate IPv4Pattern(s: string)
  {
    var parts := Split(s, '.');
    |parts| == 4 && forall i :: 0 <= i < 4 ==> OctetPattern(parts[i])
  }

  /** `validationRules.ipAddress` */
  function IpAddress(value: JsValue): (r: Option<string>)
    ensures r.None? <==> value.Str? && value.s != "" && IPv4Pattern(value.s)
    ensures r.Some? ==> r.value != ""
  {
    if !Truthy(value) || TypeOf(value) != "string" then Some("IP地址不能为空且必须是字符串")
    else if !IPv4Pattern(value.s) then Some("无效的IPv4地址格式")
    else None
  }

  /** An address is accepted exactly when it is four dot-separated numbers
      from 0 to 255 of one to three digits each. */
  lemma IpAddressIsDottedBytes(s: string)
    ensures IpAddress(Str(s)).None? <==>
      var parts := Split(s, '.');
      |parts| == 4 && forall i :: 0 <= i < 4 ==> 1 <= |parts[i]| <= 3 && AllDigits(parts[i]) && DigitsValue(parts[i]) <= 255
  {
    var parts := Split(s, '.');
    forall i | 0 <= i < |parts| {
      OctetPatternIsByte(parts[i]);
    }
  }

  // ---------------------------------------------------------------------------
  // Ports

  /** `validationRules.port` */
  function Port(value: JsValue): (r: Option<string>)
    ensures r.None? <==> ParseInt(value).Some? && 1 <= ParseInt(value).value <= 65535
    ensures r.Some? ==> (r.value == "端口号必须是数字" <==> ParseInt(value).None?)
  {
    var port := ParseInt(value);
    if port.None? then Some("端口号必须是数字")
    else if port.value < 1 || port.value > 65535 then Some("端口号必须在1-65535之间")
    else None
  }

  /** The middleware's port rule accepts the same ports as the server's
      configuration check. */
  lemma PortRuleMatchesConfig(value: JsValue, name: string)
    ensures Port(value).None? <==> ConfigValidator.ValidatePort(value, name).Ok?
  {
  }

  // ---------------------------------------------------------------------------
  // Strings, numbers and booleans

  /** The options of the string rule. An absent `message`, `minLength`,
      `maxLength` or `patternMessage` is the same as an empty or zero one,
      since the source only tests them for truthiness. */
  datatype StringOptions = StringOptions(required: bool, message: string, minLength: int, maxLength: int,
                                         pattern: Option<string -> bool>, patternMessage: string)

  function Or(message: string, fallback: string): (r: string)
    ensures r != "" <==> message != "" || fallback != ""
  {
    if message != "" then message else fallback
  }

  /** `validationRules.string(value, options)` */
  function StringRule(value: JsValue, o: StringOptions): (r: Option<string>)
    ensures r.None? <==>
      (o.required ==> value.Str? && value.s != "")
      && (value.Str? && value.s != "" ==>
            (o.minLength == 0 || |value.s| >= o.minLength)
            && (o.maxLength == 0 || |value.s| <= o.maxLength)
            && (o.pattern.None? || o.pattern.value(value.s)))
    ensures r.Some? ==> r.value != ""
  {
    if o.required && (!Truthy(value) || TypeOf(value) != "string") then Some(Or(o.message, "该字段不能为空且必须是字符串"))
    else if Truthy(value) && TypeOf(value) == "string" then
      if o.minLength != 0 && |value.s| < o.minLength then Some("该字段长度不能小于" + IntToString(o.minLength) + "个字符")
      else if o.maxLength != 0 && |value.s| > o.maxLength then Some("该字段长度不能超过" + IntToString(o.maxLength) + "个字符")
      else if o.pattern.Some? && !o.pattern.value(value.s) then Some(Or(o.patternMessage, "该字段格式不正确"))
      else None
    else None
  }

  /** An optional string field that is missing passes whatever its limits. */
  lemma MissingOptionalString(o: StringOptions)
    requires !o.required
    ensures StringRule(Undefined, o).None? && StringRule(Str(""), o).None?
  {
  }

  /** The options of the number rule; `min` and `max` apply when given. */
  datatype NumberOptions = NumberOptions(required: bool, message: string, min: Option<int>, max: Option<int>)

  /** `validationRules.number(value, options)`: the value read with
      `parseFloat`. */
  function NumberRule(value: JsValue, o: NumberOptions): (r: Option<string>)
    ensures var num := ParseFloat(value);
      r.None? <==>
        (o.required ==> !num.NaN?)
        && (!num.NaN? ==>
              (o.min.None? || !NumLess(num, Finite(o.min.value as real)))
              && (o.max.None? || !NumLess(Finite(o.max.value as real), num)))
    ensures r.Some? ==> r.value != ""
  {
    var num := ParseFloat(value);
    if o.required && num.NaN? then Some(Or(o.message, "该字段不能为空且必须是数字"))
    else if !num.NaN? then
      if o.min.Some? && NumLess(num, Finite(o.min.value as real)) then Some("该字段不能小于" + IntToString(o.min.value))
      else if o.max.Some? && NumLess(Finite(o.max.value as real), num) then Some("该字段不能大于" + IntToString(o.max.value))
      else None
    else None
  }

  /** On a number the rule is its bounds: `required` and the message play
      no part. */
  lemma NumberRuleOnNumbers(n: int, o: NumberOptions)
    ensures NumberRule(Num(n), o).None? <==>
      (o.min.None? || n >= o.min.value) && (o.max.None? || n <= o.max.value)
  {
    ParseFloatOfNum(n);
  }

  datatype BooleanOptions = BooleanOptions(required: bool, message: string)

  /** `validationRules.boolean(value, options)` */
  function BooleanRule(value: JsValue, o: BooleanOptions): (r: Option<string>)
    ensures r.None? <==> !o.required || value.Bool?
    ensures r.Some? ==> r.value != ""
  {
    if o.required && TypeOf(value) != "boolean" then Some(Or(o.message, "该字段必须是布尔值")) else None
  }

  // ---------------------------------------------------------------------------
  // Arrays and objects

  /** The position of the first reported error among `errors`, or `|errors|`. */
  function FirstReported(errors: seq<Option<string>>): (k: nat)
    ensures k <= |errors|
    ensures forall j :: 0 <= j < k ==> !Reported(errors[j])
    ensures k < |errors| ==> Reported(errors[k])
  {
    if errors == [] then 0
    else if Reported(errors[0]) then 0
    else 1 + FirstReported(errors[1..])
  }

  function ItemErrors(items: seq<JsValue>, check: Check): (e: seq<Option<string>>)
    ensures |e| == |items| && forall i :: 0 <= i < |items| ==> e[i] == check(items[i])
  {
    seq(|items|, i requires 0 <= i < |items| => check(items[i]))
  }

  /** The item loop of the array rule: the first failing item, numbered
      from one. */
  function ItemsError(items: seq<JsValue>, check: Check): (r: Option<string>)
    ensures r.None? <==> forall i :: 0 <= i < |items| ==> !Reported(check(items[i]))
    ensures r.Some? ==>
      var k := FirstReported(ItemErrors(items, check));
      k < |items| && r.value == "数组第" + IntToString(k + 1) + "项: " + check(items[k]).value
  {
    var errors := ItemErrors(items, check);
    var k := FirstReported(errors);
    if k == |items| then None else Some("数组第" + IntToString(k + 1) + "项: " + errors[k].value)
  }

  /** The item loop as the source runs it. */
  method CheckItems(items: seq<JsValue>, check: Check) returns (r: Option<string>)
    ensures r == ItemsError(items, check)
  {
    ghost var errors := ItemErrors(items, check);
    for i := 0 to |items|
      invariant forall j :: 0 <= j < i ==> !Reported(errors[j])
    {
      var itemError := check(items[i]);
      if Reported(itemError) {
        assert FirstReported(errors) == i by {
          FirstReportedAt(errors, i);
        }
        return Some("数组第" + IntToString(i + 1) + "项: " + itemError.value);
      }
    }
    assert FirstReported(errors) == |items| by {
      FirstReportedAt(errors, |items|);
    }
    r := None;
  }

  /** The first reported error is at `i` when none comes before it and
      there is one at `i` (or `i` is the end). */
  lemma {:induction false} FirstReportedAt(errors: seq<Option<string>>, i: nat)
    requires i <= |errors| && forall j :: 0 <= j < i ==> !Reported(errors[j])
    requires i < |errors| ==> Reported(errors[i])
    ensures FirstReported(errors) == i
    decreases i
  {
    if i > 0 {
      FirstReportedAt(errors[1..], i - 1);
    }
  }

  datatype ArrayOptions = ArrayOptions(required: bool, message: string, minLength: int, maxLength: int,
                                       itemType: Option<Check>)

  /** `validationRules.array(value, options)` */
  function ArrayRule(value: JsValue, o: ArrayOptions): (r: Option<string>)
    ensures r.None? <==>
      (o.required ==> value.Arr?)
      && (value.Arr? ==>
            (o.minLength == 0 || |value.items| >= o.minLength)
            && (o.maxLength == 0 || |value.items| <= o.maxLength)
            && (o.itemType.None? || forall i :: 0 <= i < |value.items| ==> !Reported(o.itemType.value(value.items[i]))))
    ensures r.Some? ==> r.value != ""
  {
    if o.required && !value.Arr? then Some(Or(o.message, "该字段不能为空且必须是数组"))
    else if value.Arr? then
      if o.minLength != 0 && |value.items| < o.minLength then Some("该数组长度不能小于" + IntToString(o.minLength))
      else if o.maxLength != 0 && |value.items| > o.maxLength then Some("该数组长度不能超过" + IntToString(o.maxLength))
      else if o.itemType.Some? then ItemsError(value.items, o.itemType.value)
      else None
    else None
  }

  /** A field of an object schema. */
  datatype Field = Field(key: string, check: Check)

  function FieldErrors(fields: map<string, JsValue>, schema: seq<Field>): (e: seq<Option<string>>)
    ensures |e| == |schema|
    ensures forall i :: 0 <= i < |schema| ==> e[i] == schema[i].check(Lookup(fields, schema[i].key))
  {
    seq(|schema|, i requires 0 <= i < |schema| => schema[i].check(Lookup(fields, schema[i].key)))
  }

  /** `obj[key]`: `undefined` for a missing key. */
  function Lookup(fields: map<string, JsValue>, key: string): (v: JsValue)
    ensures key in fields ==> v == fields[key]
    ensures key !in fields ==> v.Undefined?
  {
    if key in fields then fields[key] else Undefined
  }

  /** The schema loop of the object rule: the first failing field, named. */
  function SchemaError(fields: map<string, JsValue>, schema: seq<Field>): (r: Option<string>)
    ensures r.None? <==> forall i :: 0 <= i < |schema| ==> !Reported(schema[i].check(Lookup(fields, schema[i].key)))
    ensures r.Some? ==>
      var k := FirstReported(FieldErrors(fields, schema));
      k < |schema| && r.value == schema[k].key + ": " + schema[k].check(Lookup(fields, schema[k].key)).value
  {
    var errors := FieldErrors(fields, schema);
    var k := FirstReported(errors);
    if k == |schema| then None else Some(schema[k].key + ": " + errors[k].value)
  }

  /** The schema loop as the source runs it. */
  method CheckSchema(fields: map<string, JsValue>, schema: seq<Field>) returns (r: Option<string>)
    ensures r == SchemaError(fields, schema)
  {
    ghost var errors := FieldErrors(fields, schema);
    for i := 0 to |schema|
      invariant forall j :: 0 <= j < i ==> !Reported(errors[j])
    {
      var fieldError := schema[i].check(Lookup(fields, schema[i].key));
      if Reported(fieldError) {
        FirstReportedAt(errors, i);
        return Some(schema[i].key + ": " + fieldError.value);
      }
    }
    FirstReportedAt(errors, |schema|);
    r := None;
  }

  datatype ObjectOptions = ObjectOptions(required: bool, message: string, schema: Option<seq<Field>>)

  /** `validationRules.object(value, options)` */
  function ObjectRule(value: JsValue, o: ObjectOptions): (r: Option<string>)
    ensures r.None? <==>
      (o.required ==> value.Obj?)
      && (value.Obj? && o.schema.Some? ==>
            forall i :: 0 <= i < |o.schema.value| ==> !Reported(o.schema.value[i].check(Lookup(value.fields, o.schema.value[i].key))))
    ensures r.Some? ==> r.value != ""
  {
    if o.required && !(Truthy(value) && TypeOf(value) == "object" && !value.Arr?) then Some(Or(o.message, "该字段不能为空且必须是对象"))
    else if Truthy(value) && TypeOf(value) == "object" && !value.Arr? then
      if o.schema.Some? then SchemaError(value.fields, o.schema.value) else None
    else None
  }

  // ---------------------------------------------------------------------------
  // The middleware

  /** `{...params, ...query, ...body}`: a later source wins. */
  function Merge(params: map<string, JsValue>, query: map<string, JsValue>, body: map<string, JsValue>): (all: map<string, JsValue>)
    ensures all.Keys == params.Keys + query.Keys + body.Keys
    ensures forall k :: k in all ==>
      all[k] == if k in body then body[k] else if k in query then query[k] else params[k]
  {
    params + query + body
  }

  datatype Detail = Detail(field: string, message: string)

  /** The JSON body of the 400 answer. */
  datatype ErrorBody = ErrorBody(code: nat, message: string, details: seq<Detail>, timestamp: string, path: string, verb: string)

  /** What the middleware does with a request: answer it, or call `next()`. */
  datatype Outcome = Respond(status: nat, success: bool, error: ErrorBody) | Next

  /** The details of the first `n` schema fields, in schema order. */
  function Details(data: map<string, JsValue>, schema: seq<Field>, n: nat): (d: seq<Detail>)
    requires n <= |schema|
    ensures |d| <= n
  {
    if n == 0 then []
    else
      var f := schema[n - 1];
      var error := f.check(Lookup(data, f.key));
      Details(data, schema, n - 1) + (if Reported(error) then [Detail(f.key, error.value)] else [])
  }

  /** One detail per failing field: none exactly when every field passes. */
  lemma {:induction false} DetailsEmptyIff(data: map<string, JsValue>, schema: seq<Field>, n: nat)
    requires n <= |schema|
    ensures Details(data, schema, n) == [] <==> forall i :: 0 <= i < n ==> !Reported(schema[i].check(Lookup(data, schema[i].key)))
  {
    if n > 0 {
      DetailsEmptyIff(data, schema, n - 1);
    }
  }

  /** Every detail names a failing field of the schema with its message. */
  lemma {:induction false} DetailsAreFailures(data: map<string, JsValue>, schema: seq<Field>, n: nat)
    requires n <= |schema|
    ensures forall d :: d in Details(data, schema, n) ==>
      exists i :: 0 <= i < n && schema[i].key == d.field && Some(d.message) == schema[i].check(Lookup(data, schema[i].key))
                  && d.message != ""
  {
    if n > 0 {
      DetailsAreFailures(data, schema, n - 1);
    }
  }

  /** The answer for a list of details. */
  function Answer(details: seq<Detail>, timestamp: string, path: string, verb: string): (r: Outcome)
    ensures r.Next? <==> details == []
    ensures r.Respond? ==> r.status == 400 && !r.success && r.error.code == 400 && r.error.details == details
  {
    if details == [] then Next
    else Respond(400, false, ErrorBody(400, "输入验证失败", details, timestamp, path, verb))
  }

  /** `validate(schema)(req, res, next)`; the clock's reading is passed in. */
  method Validate(schema: seq<Field>, params: map<string, JsValue>, query: map<string, JsValue>, body: map<string, JsValue>,
                  timestamp: string, path: string, verb: string) returns (r: Outcome)
    ensures r == Answer(Details(Merge(params, query, body), schema, |schema|), timestamp, path, verb)
  {
    var allData := Merge(params, query, body);
    var errors: seq<Detail> := [];
    for i := 0 to |schema|
      invariant errors == Details(allData, schema, i)
    {
      var field := schema[i].key;
      var error := schema[i].check(Lookup(allData, field));
      if Reported(error) {
        errors := errors + [Detail(field, error.value)];
      }
    }
    r := Answer(errors, timestamp, path, verb);
  }

  /** `validate` passes the request on exactly when every field passes,
      each field read from the body first, then the query, then the path
      parameters. */
  lemma ValidatePassesIff(schema: seq<Field>, params: map<string, JsValue>, query: map<string, JsValue>, body: map<string, JsValue>,
                          timestamp: string, path: string, verb: string)
    ensures Answer(Details(Merge(params, query, body), schema, |schema|), timestamp, path, verb).Next? <==>
      forall i :: 0 <= i < |schema| ==> !Reported(schema[i].check(Lookup(Merge(params, query, body), schema[i].key)))
  {
    DetailsEmptyIff(Merge(params, query, body), schema, |schema|);
  }
}
