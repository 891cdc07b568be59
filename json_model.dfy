/** JsonModel: a dict whose entries can also be read and written as
    attributes. `entries` is the dict's contents; `attrs` is the instance's
    own attribute dictionary, which every attribute write also fills. */
module JsonModels {
  import opened Wrappers
  import opened Values
  import opened Errors
  import opened Text

  /** What an attribute read yields: a stored value, a new JsonModel
      wrapping a dict-valued entry, described by its contents, or one of the
      methods the class inherits from `dict`, bound to the instance. */
  datatype Attr = Plain(v: Value) | Wrapped(contents: map<string, Value>) | Method(name: string)

  /** Names containing a double underscore are never looked up in the dict. */
  predicate Dunder(name: string) { Contains(name, "__") }

  /** The public methods of `dict`. Normal attribute lookup finds them on the
      class, so `__getattr__` never runs for these names. */
  predicate DictMethod(name: string) {
    name in {"clear", "copy", "fromkeys", "get", "items", "keys", "pop", "popitem", "setdefault", "update", "values"}
  }

  class JsonModel {
    var entries: map<string, Value>
    var attrs: map<string, Value>

    /** Stores every entry of `json`, then every keyword entry; a missing or
        empty `json` contributes nothing. */
    constructor (json: Option<map<string, Value>>, kwargs: map<string, Value>)
      ensures attrs == map[]
      ensures entries.Keys == (if json.Some? then json.value.Keys else {}) + kwargs.Keys
      ensures forall k :: k in kwargs ==> entries[k] == kwargs[k]
      ensures forall k :: json.Some? && k in json.value && k !in kwargs ==> entries[k] == json.value[k]
    {
      var m: map<string, Value> := map[];
      if json.Some? && json.value != map[] {
        m := m + json.value;
      }
      if kwargs != map[] {
        m := m + kwargs;
      }
      entries := m;
      attrs := map[];
    }

    /** Attribute read: the instance's own attribute if it has one; otherwise
        a method inherited from `dict`, which shadows an entry of the same
        name; otherwise, through `__getattr__`, a dict entry whose name has no
        double underscore, wrapped when it is itself a dict; otherwise
        AttributeError. */
    function GetAttr(name: string): (r: Result<Attr, Error>)
      reads this
      ensures name in attrs ==> r == Success(Plain(attrs[name]))
      ensures name !in attrs && DictMethod(name) ==> r == Success(Method(name))
      ensures name !in attrs && !DictMethod(name) && (Dunder(name) || name !in entries) ==> r == Failure(AttributeError(name))
      ensures name !in attrs && !DictMethod(name) && !Dunder(name) && name in entries ==>
                r.Success? && (r.value.Wrapped? <==> entries[name].VDict?)
      ensures r.Success? && r.value.Method? ==> r.value.name == name && name !in attrs
      ensures r.Success? && r.value.Wrapped? ==> name in entries && VDict(r.value.contents) == entries[name]
      ensures r.Success? && r.value.Plain? ==> r.value.v == if name in attrs then attrs[name] else entries[name]
    {
      if name in attrs then Success(Plain(attrs[name]))
      else if DictMethod(name) then Success(Method(name))
      else if !Dunder(name) && name in entries then
        var v := entries[name];
        if v.VDict? then Success(Wrapped(v.entries)) else Success(Plain(v))
      else Failure(AttributeError(name))
    }

    /** Attribute write: a name without a double underscore stores the raw
        value in the dict; every name becomes an instance attribute. */
    method SetAttr(name: string, value: Value)
      modifies this
      ensures attrs == old(attrs)[name := value]
      ensures entries == if Dunder(name) then old(entries) else old(entries)[name := value]
      ensures GetAttr(name) == Success(Plain(value))
    {
      if !Dunder(name) {
        if value.VDict? {
          entries := entries[name := VDict(value.entries)];
        }
        entries := entries[name := value];
      }
      attrs := attrs[name := value];
    }
  }
}
