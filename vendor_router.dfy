/** The vendor endpoints: create, list, get, partial update (`exclude_unset`) and
    delete of the vendors and dealers the mill pays. */
module VendorRouter {
  import opened Common
  import opened Tables
  import opened Sorting
  import opened Models

  /** The request body of `POST /api/vendors/`. */
  datatype VendorCreate = VendorCreate(
    name: string, companyName: Option<string>, contactPerson: Option<string>,
    email: Option<string>, phone: Option<string>, address: Option<string>,
    vendorType: Option<string>, gstin: Option<string>, pan: Option<string>,
    bankAccount: Option<string>, bankName: Option<string>, ifscCode: Option<string>,
    notes: Option<string>)

  /** The columns `VendorUpdate` can set. */
  datatype VendorField =
    | Name | CompanyName | ContactPerson | Email | Phone | Address | VendorType
    | Gstin | Pan | BankAccount | BankName | IfscCode | Notes

  /** One item of `vendor_update.dict(exclude_unset=True)`: a column the client sent and
      the value it sent for it (possibly null). */
  datatype VendorEdit = VendorEdit(field: VendorField, value: Option<string>)

  /** A vendor row being edited in the session. The `name` attribute is held apart, since
      the session lets it become None, which the NOT NULL column refuses at commit. */
  datatype VendorDraft = VendorDraft(row: Vendor, name: Option<string>)

  function Editing(v: Vendor): VendorDraft { VendorDraft(v, Some(v.name)) }

  /** The row the commit writes, when the name is set. */
  function Committed(d: VendorDraft): Vendor
    requires d.name.Some?
  {
    d.row.(name := d.name.value)
  }

  const VendorNotFound := NotFound("Vendor not found")

  /** `Vendor(**vendor.dict())`: every field of the request, the creation time and the
      next id. */
  function NewVendor(id: int, d: VendorCreate, now: Timestamp): Vendor {
    Vendor(id, d.name, d.companyName, d.contactPerson, d.email, d.phone, d.address, d.vendorType,
           d.gstin, d.pan, d.bankAccount, d.bankName, d.ifscCode, d.notes, now)
  }

  /** The value of column `f` of a vendor row. */
  function Get(v: Vendor, f: VendorField): Option<string> {
    match f
    case Name => Some(v.name)
    case CompanyName => v.companyName
    case ContactPerson => v.contactPerson
    case Email => v.email
    case Phone => v.phone
    case Address => v.address
    case VendorType => v.vendorType
    case Gstin => v.gstin
    case Pan => v.pan
    case BankAccount => v.bankAccount
    case BankName => v.bankName
    case IfscCode => v.ifscCode
    case Notes => v.notes
  }

  /** The value the request carried for column `f` of a new vendor. */
  function Sent(d: VendorCreate, f: VendorField): Option<string> {
    match f
    case Name => Some(d.name)
    case CompanyName => d.companyName
    case ContactPerson => d.contactPerson
    case Email => d.email
    case Phone => d.phone
    case Address => d.address
    case VendorType => d.vendorType
    case Gstin => d.gstin
    case Pan => d.pan
    case BankAccount => d.bankAccount
    case BankName => d.bankName
    case IfscCode => d.ifscCode
    case Notes => d.notes
  }

  /** `create_vendor` stores every field the client provided. */
  lemma NewVendorCarriesFields(id: int, d: VendorCreate, now: Timestamp)
    ensures forall f :: Get(NewVendor(id, d, now), f) == Sent(d, f)
    ensures NewVendor(id, d, now).id == id && NewVendor(id, d, now).createdAt == now
  {
    forall f ensures Get(NewVendor(id, d, now), f) == Sent(d, f) {
      match f
      case Name =>
      case _ =>
    }
  }

  /** `setattr(vendor, key, value)` for one sent item. */
  function Apply(d: VendorDraft, e: VendorEdit): VendorDraft {
    var v := d.row;
    var x := e.value;
    match e.field
    case Name => d.(name := x)
    case CompanyName => d.(row := v.(companyName := x))
    case ContactPerson => d.(row := v.(contactPerson := x))
    case Email => d.(row := v.(email := x))
    case Phone => d.(row := v.(phone := x))
    case Address => d.(row := v.(address := x))
    case VendorType => d.(row := v.(vendorType := x))
    case Gstin => d.(row := v.(gstin := x))
    case Pan => d.(row := v.(pan := x))
    case BankAccount => d.(row := v.(bankAccount := x))
    case BankName => d.(row := v.(bankName := x))
    case IfscCode => d.(row := v.(ifscCode := x))
    case Notes => d.(row := v.(notes := x))
  }

  /** The draft after the `setattr` loop has run over `edits` in order. */
  function Patched(d: VendorDraft, edits: seq<VendorEdit>): VendorDraft
    decreases |edits|
  {
    if edits == [] then d else Apply(Patched(d, edits[..|edits| - 1]), edits[|edits| - 1])
  }

  /** The value last sent for column `f`, or None when the client did not send it. */
  function LastSent(edits: seq<VendorEdit>, f: VendorField): Option<Option<string>>
    decreases |edits|
  {
    if edits == [] then None
    else if edits[|edits| - 1].field == f then Some(edits[|edits| - 1].value)
    else LastSent(edits[..|edits| - 1], f)
  }

  /** The value of column `f` of a draft. */
  function DraftGet(d: VendorDraft, f: VendorField): Option<string> {
    if f == Name then d.name else Get(d.row, f)
  }

  /** The update is a partial one: a column the client did not send keeps its value, a sent
      column takes the last value sent for it, and the id and creation time never change. */
  lemma {:induction false} PatchedFieldwise(v: Vendor, edits: seq<VendorEdit>)
    ensures var d := Patched(Editing(v), edits);
      && d.row.id == v.id && d.row.createdAt == v.createdAt
      && forall f :: DraftGet(d, f) == (if LastSent(edits, f).Some? then LastSent(edits, f).value else Get(v, f))
    decreases |edits|
  {
    if edits != [] {
      var init := edits[..|edits| - 1];
      var e := edits[|edits| - 1];
      PatchedFieldwise(v, init);
      var before := Patched(Editing(v), init);
      var d := Patched(Editing(v), edits);
      assert d == Apply(before, e);
      forall f
        ensures DraftGet(d, f) == (if LastSent(edits, f).Some? then LastSent(edits, f).value else Get(v, f))
      {
        if f != e.field {
          assert LastSent(edits, f) == LastSent(init, f);
          assert DraftGet(d, f) == DraftGet(before, f) by {
            match e.field
            case Name =>
            case _ =>
          }
        }
      }
    }
  }

  /** Replacing a vendor row by one with the same id keeps the database consistent. */
  lemma ReplaceVendorKeepsConsistent(st: Store, i: nat, v: Vendor)
    requires Consistent(st) && i < |st.vendors| && v.id == st.vendors[i].id
    ensures Consistent(st.(vendors := st.vendors[i := v]))
  {
    ReplaceKeepsKeys(st.vendors, VendorKey, st.nextVendorId, i, v);
  }

  /** Appending a vendor under the next id keeps the database consistent. */
  lemma CreateVendorKeepsConsistent(st: Store, v: Vendor)
    requires Consistent(st) && v.id == st.nextVendorId
    ensures Consistent(st.(vendors := st.vendors + [v], nextVendorId := st.nextVendorId + 1))
  {
    AppendFreshKey(st.vendors, VendorKey, st.nextVendorId, v);
  }

  /** Deleting a vendor no payment refers to keeps the database consistent. */
  lemma DeleteVendorKeepsConsistent(st: Store, i: nat)
    requires Consistent(st) && i < |st.vendors|
    requires st.vendors[i].id !in Keys(st.payments, (p: VendorPayment) => p.vendorId)
    ensures Consistent(st.(vendors := RemoveAt(st.vendors, i)))
  {
    RemoveAtKeys(st.vendors, VendorKey, st.nextVendorId, i);
    forall k | 0 <= k < |st.payments| ensures st.payments[k].vendorId != st.vendors[i].id {
      assert st.payments[k].vendorId in Keys(st.payments, (p: VendorPayment) => p.vendorId);
    }
  }

  /** `create_vendor`. */
  method CreateVendor(db: Session, d: VendorCreate, now: Timestamp) returns (v: Vendor)
    requires db.Valid()
    modifies db
    ensures db.Valid()
    ensures v == NewVendor(old(db.store.nextVendorId), d, now)
    ensures v.id !in Keys(old(db.store.vendors), VendorKey)
    ensures db.store == old(db.store).(vendors := old(db.store.vendors) + [v],
                                       nextVendorId := old(db.store.nextVendorId) + 1)
  {
    var st := db.store;
    v := NewVendor(st.nextVendorId, d, now);
    CreateVendorKeepsConsistent(st, v);
    db.store := st.(vendors := st.vendors + [v], nextVendorId := st.nextVendorId + 1);
  }

  /** `ORDER BY created_at DESC`. */
  function VendorNewestFirst(a: Vendor, b: Vendor): bool { a.createdAt >= b.createdAt }

  /** `list_vendors`: newest first, `skip` rows skipped, at most `limit` returned. */
  function ListVendors(vendors: seq<Vendor>, skip: nat, limit: nat): (r: seq<Vendor>)
    ensures |r| <= limit && (skip + limit <= |vendors| ==> |r| == limit)
    ensures |r| == if skip >= |vendors| then 0 else Min(limit, |vendors| - skip)
    ensures r == SkipLimit(SortBy(vendors, VendorNewestFirst), skip, limit)
    ensures forall i, j :: 0 <= i < j < |r| ==> r[i].createdAt >= r[j].createdAt
    ensures forall i :: 0 <= i < |r| ==> r[i] in vendors
  {
    assert IsTotalPreorder(VendorNewestFirst);
    OrderedPage(vendors, VendorNewestFirst, skip, limit)
  }

  /** `get_vendor`. */
  function GetVendor(vendors: seq<Vendor>, id: int): (r: Result<Vendor>)
    ensures r.Err? <==> id !in Keys(vendors, VendorKey)
    ensures r.Err? ==> r.error == VendorNotFound
    ensures r.Ok? ==> r.value in vendors && r.value.id == id
  {
    match Find(vendors, VendorKey, id)
    case None => Err(VendorNotFound)
    case Some(i) => Ok(vendors[i])
  }

  /** `update_vendor`: the sent items are applied one by one, then the session commits. A
      null name is refused by the NOT NULL column and nothing changes. */
  method UpdateVendor(db: Session, id: int, edits: seq<VendorEdit>) returns (r: Result<Vendor>)
    requires db.Valid()
    modifies db
    ensures db.Valid()
    ensures id !in Keys(old(db.store.vendors), VendorKey) ==> r == Err(VendorNotFound)
    ensures r.Err? ==> db.store == old(db.store)
    ensures id in Keys(old(db.store.vendors), VendorKey) ==>
      var st := old(db.store);
      var i := Find(st.vendors, VendorKey, id).value;
      var d := Patched(Editing(st.vendors[i]), edits);
      if d.name.None? then r == Err(IntegrityError)
      else r == Ok(Committed(d)) && db.store == st.(vendors := st.vendors[i := Committed(d)])
  {
    var st := db.store;
    var found := Find(st.vendors, VendorKey, id);
    if found.None? {
      return Err(VendorNotFound);
    }
    var i := found.value;
    var d := Editing(st.vendors[i]);
    for k := 0 to |edits|
      invariant d == Patched(Editing(st.vendors[i]), edits[..k])
    {
      assert edits[..k + 1][..k] == edits[..k];
      d := Apply(d, edits[k]);
    }
    assert edits[..|edits|] == edits;
    if d.name.None? {
      return Err(IntegrityError);
    }
    PatchedFieldwise(st.vendors[i], edits);
    var v := Committed(d);
    ReplaceVendorKeepsConsistent(st, i, v);
    db.store := st.(vendors := st.vendors[i := v]);
    r := Ok(v);
  }

  /** `delete_vendor`. A vendor that payments still refer to is kept by the
      `vendor_payments.vendor_id` foreign key. */
  method DeleteVendor(db: Session, id: int) returns (r: Result<string>)
    requires db.Valid()
    modifies db
    ensures db.Valid()
    ensures id !in Keys(old(db.store.vendors), VendorKey) ==> r == Err(VendorNotFound)
    ensures r.Err? ==> db.store == old(db.store)
    ensures id in Keys(old(db.store.vendors), VendorKey) ==>
      var st := old(db.store);
      if id in Keys(st.payments, (p: VendorPayment) => p.vendorId) then r == Err(IntegrityError)
      else r == Ok("Vendor deleted successfully")
           && db.store == st.(vendors := RemoveAt(st.vendors, Find(st.vendors, VendorKey, id).value))
           && id !in Keys(db.store.vendors, VendorKey)
  {
    var st := db.store;
    var found := Find(st.vendors, VendorKey, id);
    if found.None? {
      return Err(VendorNotFound);
    }
    var i := found.value;
    var referenced := Find(st.payments, (p: VendorPayment) => p.vendorId, id);
    if referenced.Some? {
      return Err(IntegrityError);
    }
    DeleteVendorKeepsConsistent(st, i);
    RemoveAtKeys(st.vendors, VendorKey, st.nextVendorId, i);
    db.store := st.(vendors := RemoveAt(st.vendors, i));
    r := Ok("Vendor deleted successfully");
  }
}
