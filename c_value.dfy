/** The C port's values (c-lang/include/scl_parser.h, c-lang/src/scl_value.c). A value is a
    heap object tagged with its type. A class holds an array of (key, value) entries and a
    list an array of scalar copies, each with a length and a capacity; both arrays are
    grown in place by doubling. */
module CValue {
  import opened Wrappers

  /** scl_type_t. */
  datatype SclType = SclBool | SclNum | SclFl | SclStr | SclMl | SclClass | SclList | SclNull

  predicate IsScalarType(t: SclType)
  {
    t == SclBool || t == SclNum || t == SclFl || t == SclStr || t == SclMl
  }

  /** A list slot: the copy of a scalar value that scl_list_push stores. A float keeps the
      text it was read from. */
  datatype Scalar = SBool(b: bool) | SNum(i: int) | SFl(lexeme: string) | SStr(s: string) | SMl(s: string)

  function TypeOf(x: Scalar): (t: SclType)
    ensures IsScalarType(t)
  {
    match x
    case SBool(_) => SclBool
    case SNum(_) => SclNum
    case SFl(_) => SclFl
    case SStr(_) => SclStr
    case SMl(_) => SclMl
  }

  /** The element type a list has after a push of a value of type vt: the first push fixes
      it, str and ml both giving STR. */
  function FixedType(et: SclType, vt: SclType): SclType
  {
    if et != SclNull then et else if vt == SclStr || vt == SclMl then SclStr else vt
  }

  /** Whether a list of element type et takes a value of type vt: its own type, an ml string
      into a STR list, or an integer into an FL list. */
  predicate Admits(et: SclType, vt: SclType)
  {
    vt == et || (vt == SclMl && et == SclStr) || (vt == SclNum && et == SclFl)
  }

  /** The capacity a full entry or item array grows to: 8 the first time, then double. */
  function GrownCap(cap: nat): (n: nat)
    ensures n > cap
  {
    if cap == 0 then 8 else cap * 2
  }

  /** scl_entry_t: a key and the value it names (which may be NULL). */
  datatype Entry = Entry(key: string, value: SclValue?)

  /** scl_value_t. The fields of the union that do not belong to the tag are unused. */
  class SclValue {
    var tag: SclType
    var b: bool
    var i: int
    var f: string
    var s: string
    var entries: array<Entry>
    var objLen: nat
    var objCap: nat
    var items: array<Scalar>
    var listLen: nat
    var listCap: nat
    var elementType: SclType

    /** Each array has its capacity as length and holds its length's worth of slots. */
    ghost predicate Valid()
      reads this
    {
      entries.Length == objCap && objLen <= objCap && items.Length == listCap && listLen <= listCap
    }

    /** The class entries, in the order they were put. */
    function Entries(): seq<Entry>
      reads this, entries
      requires objLen <= entries.Length
    {
      entries[..objLen]
    }

    /** The list items, in the order they were pushed. */
    function Items(): seq<Scalar>
      reads this, items
      requires listLen <= items.Length
    {
      items[..listLen]
    }

    /** What a scalar value holds, as a list slot copies it. */
    function AsScalar(): (x: Scalar)
      reads this
      requires IsScalarType(tag)
      ensures TypeOf(x) == tag
    {
      match tag
      case SclBool => SBool(b)
      case SclNum => SNum(i)
      case SclFl => SFl(f)
      case SclStr => SStr(s)
      case SclMl => SMl(s)
    }

    /** Every item of a list fits its element type, and a list whose element type is not
        fixed yet is empty. */
    ghost predicate Homogeneous()
      reads this, items
      requires Valid()
    {
      (elementType == SclNull ==> listLen == 0) &&
      forall k :: 0 <= k < listLen ==> Admits(elementType, TypeOf(items[k]))
    }

    /** The class part of the value. */
    function ClassPart(): (array<Entry>, nat, nat)
      reads this
    {
      (entries, objLen, objCap)
    }

    /** The list part of the value. */
    function ListPart(): (array<Scalar>, nat, nat, SclType)
      reads this
    {
      (items, listLen, listCap, elementType)
    }

    /** The scalar part of the value. */
    function ScalarPart(): (SclType, bool, int, string, string)
      reads this
    {
      (tag, b, i, f, s)
    }

    /** The allocation of scl_make_null: a NULL value with empty arrays. */
    constructor ()
      ensures Valid() && tag == SclNull && objLen == 0 && objCap == 0 && listLen == 0 && listCap == 0
      ensures elementType == SclNull
      ensures fresh(entries) && fresh(items)
    {
      tag := SclNull;
      b := false;
      i := 0;
      f := "";
      s := "";
      entries := new Entry[0];
      objLen := 0;
      objCap := 0;
      items := new Scalar[0];
      listLen := 0;
      listCap := 0;
      elementType := SclNull;
    }
  }

  method MakeNull() returns (v: SclValue)
    ensures fresh(v) && fresh(v.entries) && fresh(v.items) && v.Valid()
    ensures v.tag == SclNull && v.Entries() == [] && v.Items() == [] && v.elementType == SclNull
    ensures v.objCap == 0 && v.listCap == 0
  {
    v := new SclValue();
  }

  method MakeBool(b: bool) returns (v: SclValue)
    ensures fresh(v) && fresh(v.entries) && fresh(v.items) && v.Valid()
    ensures v.tag == SclBool && v.AsScalar() == SBool(b)
  {
    v := MakeNull();
    v.tag := SclBool;
    v.b := b;
  }

  method MakeNum(i: int) returns (v: SclValue)
    ensures fresh(v) && fresh(v.entries) && fresh(v.items) && v.Valid()
    ensures v.tag == SclNum && v.AsScalar() == SNum(i)
  {
    v := MakeNull();
    v.tag := SclNum;
    v.i := i;
  }

  method MakeFl(lexeme: string) returns (v: SclValue)
    ensures fresh(v) && fresh(v.entries) && fresh(v.items) && v.Valid()
    ensures v.tag == SclFl && v.AsScalar() == SFl(lexeme)
  {
    v := MakeNull();
    v.tag := SclFl;
    v.f := lexeme;
  }

  /** scl_make_str: a copy of the text, the empty string for NULL. */
  method MakeStr(text: Option<string>) returns (v: SclValue)
    ensures fresh(v) && fresh(v.entries) && fresh(v.items) && v.Valid()
    ensures v.tag == SclStr && v.AsScalar() == SStr(if text.Some? then text.value else "")
  {
    v := MakeNull();
    v.tag := SclStr;
    v.s := if text.Some? then text.value else "";
  }

  /** scl_make_ml: as scl_make_str, tagged ML. */
  method MakeMl(text: Option<string>) returns (v: SclValue)
    ensures fresh(v) && fresh(v.entries) && fresh(v.items) && v.Valid()
    ensures v.tag == SclMl && v.AsScalar() == SMl(if text.Some? then text.value else "")
  {
    v := MakeNull();
    v.tag := SclMl;
    v.s := if text.Some? then text.value else "";
  }

  method MakeClass() returns (v: SclValue)
    ensures fresh(v) && fresh(v.entries) && fresh(v.items) && v.Valid()
    ensures v.tag == SclClass && v.Entries() == [] && v.objCap == 0
  {
    v := MakeNull();
    v.tag := SclClass;
  }

  /** scl_make_list: an empty list with the given element type. */
  method MakeList(elementType: SclType) returns (v: SclValue)
    ensures fresh(v) && fresh(v.entries) && fresh(v.items) && v.Valid()
    ensures v.tag == SclList && v.Items() == [] && v.listCap == 0 && v.elementType == elementType
    ensures v.Homogeneous()
  {
    v := MakeNull();
    v.tag := SclList;
    v.elementType := elementType;
  }

  /** scl_class_put: -1 unless obj is a class; otherwise the entry is appended after the
      others, a repeated key included, and the array grows first when it is full. */
  method ClassPut(obj: SclValue?, key: string, val: SclValue?) returns (rc: int)
    requires obj != null ==> obj.Valid()
    modifies obj, if obj != null then {obj.entries} else {}
    ensures obj == null ==> rc == -1
    ensures obj != null ==> obj.Valid() && obj.ListPart() == old(obj.ListPart()) && obj.ScalarPart() == old(obj.ScalarPart())
    ensures obj != null && obj.tag != SclClass ==> rc == -1 && obj.ClassPart() == old(obj.ClassPart())
    ensures obj != null && obj.tag == SclClass ==>
      rc == 0 &&
      obj.Entries() == old(obj.Entries()) + [Entry(key, val)] &&
      obj.objCap == (if old(obj.objLen) == old(obj.objCap) then GrownCap(old(obj.objCap)) else old(obj.objCap))
    ensures obj != null ==> obj.entries == old(obj.entries) || fresh(obj.entries)
  {
    if obj == null || obj.tag != SclClass {
      return -1;
    }
    if obj.objLen == obj.objCap {
      var ncap := GrownCap(obj.objCap);
      var grown := new Entry[ncap];
      forall k | 0 <= k < obj.objLen {
        grown[k] := obj.entries[k];
      }
      obj.entries := grown;
      obj.objCap := ncap;
    }
    obj.entries[obj.objLen] := Entry(key, val);
    obj.objLen := obj.objLen + 1;
    return 0;
  }

  /** Whether scl_list_push stores val into list. */
  predicate PushAccepted(isList: bool, elementType: SclType, vt: SclType)
  {
    isList && IsScalarType(vt) && Admits(FixedType(elementType, vt), vt)
  }

  /** scl_list_push: -1 unless list is a list and val a scalar the element type admits (the
      first push fixing the element type); otherwise a copy of val is stored after the
      others, the array growing first when it is full. A refused push changes nothing. */
  method ListPush(list: SclValue?, val: SclValue) returns (rc: int)
    requires list != null ==> list.Valid()
    modifies list, if list != null then {list.items} else {}
    ensures list == null ==> rc == -1
    ensures list != null ==> list.Valid() && list.ClassPart() == old(list.ClassPart()) && list.tag == old(list.tag)
    ensures list != null ==> var ok := PushAccepted(old(list.tag) == SclList, old(list.elementType), old(val.tag));
      (rc == 0 <==> ok) && (rc == 0 || rc == -1) &&
      (!ok ==> list.ListPart() == old(list.ListPart()) && list.Items() == old(list.Items())) &&
      (ok ==> list.Items() == old(list.Items()) + [old(val.AsScalar())] &&
              list.elementType == FixedType(old(list.elementType), old(val.tag)) &&
              list.listCap == (if old(list.listLen) == old(list.listCap) then GrownCap(old(list.listCap)) else old(list.listCap)))
    ensures list != null && old(list.Homogeneous()) ==> list.Homogeneous()
    ensures list != null ==> list.items == old(list.items) || fresh(list.items)
  {
    if list == null || list.tag != SclList {
      return -1;
    }
    if !IsScalarType(val.tag) {
      return -1;
    }
    var copy := val.AsScalar();
    var vt := val.tag;
    if list.elementType == SclNull {
      list.elementType := if vt == SclStr || vt == SclMl then SclStr else vt;
    }
    if vt == SclMl && list.elementType == SclStr {
    } else if vt != list.elementType && !(list.elementType == SclFl && vt == SclNum) {
      return -1;
    }
    if list.listLen == list.listCap {
      var ncap := GrownCap(list.listCap);
      var grown := new Scalar[ncap];
      forall k | 0 <= k < list.listLen {
        grown[k] := list.items[k];
      }
      list.items := grown;
      list.listCap := ncap;
    }
    list.items[list.listLen] := copy;
    list.listLen := list.listLen + 1;
    return 0;
  }

  /** The first push into a list without an element type is always accepted, and it fixes
      STR for both kinds of string. */
  lemma FirstPushFixes(vt: SclType)
    requires IsScalarType(vt)
    ensures PushAccepted(true, SclNull, vt)
    ensures FixedType(SclNull, vt) == (if vt == SclMl then SclStr else vt)
  {
  }

  /** Once the element type is fixed, a push is refused exactly when the kinds differ,
      except an ml string into a STR list and an integer into an FL list. */
  lemma FixedListRefuses(et: SclType, vt: SclType)
    requires et != SclNull && IsScalarType(vt)
    ensures !PushAccepted(true, et, vt) <==> vt != et && !(vt == SclMl && et == SclStr) && !(vt == SclNum && et == SclFl)
  {
  }
}
