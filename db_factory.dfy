/**
 * The database driver factory (`DBFactory.get_driver`): the argument is
 * normalised to text, through its `value` attribute when it has one (an
 * enum member), and only Firebird is supported.
 */
module DbFactory {
  import opened Wrappers
  import opened Text

  /**
   * The argument as the factory sees it: what `str()` gives, what
   * `repr(type(...))` gives, and the text of its `value` attribute when
   * it has one.
   */
  datatype DbArg = DbArg(text: string, typeRepr: string, value: Option<string>)

  /** A plain Python string. */
  function StrArg(s: string): DbArg { DbArg(s, "<class 'str'>", None) }

  /** A member of the `DBConstants` enum. */
  function EnumArg(name: string, value: string): DbArg {
    DbArg("DBConstants." + name, "<enum 'DBConstants'>", Some(value))
  }

  datatype Driver = Firebird

  /** `type_str`: the `value` attribute when present, else `str()` of the argument. */
  function TypeStr(a: DbArg): string {
    if a.value.Some? then a.value.value else a.text
  }

  /** `get_driver(db_type)`: a new Firebird driver, or the `ValueError` message. */
  function GetDriver(a: DbArg): (r: Result<Driver>)
    ensures r.Ok? <==> TypeStr(a) == "firebird" || Contains(a.text, "TYPE_FIREBIRD")
    ensures r.Err? ==> r.error == "Unsupported database type: " + a.text + " (type: " + a.typeRepr
                                   + ", str: " + TypeStr(a) + ")"
  {
    if TypeStr(a) == "firebird" || Contains(a.text, "TYPE_FIREBIRD") then Ok(Firebird)
    else Err("Unsupported database type: " + a.text + " (type: " + a.typeRepr + ", str: " + TypeStr(a) + ")")
  }

  /** The string `"firebird"` and the enum member `DBConstants.TYPE_FIREBIRD` both give Firebird. */
  lemma FirebirdAccepted()
    ensures GetDriver(StrArg("firebird")) == Ok(Firebird)
    ensures GetDriver(EnumArg("TYPE_FIREBIRD", "firebird")) == Ok(Firebird)
  {}

  /** Any argument whose text mentions `TYPE_FIREBIRD` gives Firebird, whatever its value. */
  lemma TypeFirebirdTextAccepted(a: DbArg, i: nat)
    requires OccursAt(a.text, "TYPE_FIREBIRD", i)
    ensures GetDriver(a) == Ok(Firebird)
  {
    ContainsIff(a.text, "TYPE_FIREBIRD");
  }

  /** A text without `TYPE_FIREBIRD` and without a `value` is accepted only when it is exactly `"firebird"`. */
  lemma PlainTextIffFirebird(s: string)
    requires !Contains(s, "TYPE_FIREBIRD")
    ensures GetDriver(StrArg(s)).Ok? <==> s == "firebird"
  {}

  /** Other database names are refused. */
  lemma OthersRefused()
    ensures GetDriver(StrArg("postgres")).Err?
    ensures GetDriver(StrArg("mysql")).Err?
    ensures GetDriver(EnumArg("TYPE_MYSQL", "mysql")).Err?
  {
    MissingCharNotContained("postgres", "TYPE_FIREBIRD", 0, 0);
    MissingCharNotContained("mysql", "TYPE_FIREBIRD", 0, 0);
    MysqlEnumRefused();
  }

  /** The enum member's text `DBConstants.TYPE_MYSQL` has no `F`, so it cannot contain `TYPE_FIREBIRD`. */
  lemma MysqlEnumRefused()
    ensures GetDriver(EnumArg("TYPE_MYSQL", "mysql")).Err?
  {
    var prefix, name := "DBConstants.", "TYPE_MYSQL";
    assert forall j :: 0 <= j < |prefix| ==> prefix[j] != 'F';
    assert forall j :: 0 <= j < |name| ==> name[j] != 'F';
    MissingCharNotContained(prefix + name, "TYPE_FIREBIRD", 5, 0);
  }
}
