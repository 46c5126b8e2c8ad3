/**
 * The data layer of src/data/store.ts: the AppData aggregate kept as one JSON
 * blob in the `zeipilote-data` localStorage slot, the read-modify-write
 * operations on it, and the pure queries over its collections.
 */
module Store {
  import opened Wrappers
  import opened Browser
  import opened Seqs

  datatype Client = Client(
    id: string, name: string, email: string,
    phone: Option<string>, address: Option<string>, createdAt: string)

  datatype InvoiceStatus = Draft | Sent | Paid

  /** One invoice line; JavaScript numbers are taken as reals, without rounding. */
  datatype Item = Item(description: string, quantity: real, price: real)

  datatype Invoice = Invoice(
    id: string, clientId: string, amount: real, status: InvoiceStatus,
    date: string, dueDate: string, items: seq<Item>)

  datatype ProjectStatus = Active | Completed | OnHold

  datatype Project = Project(
    id: string, clientId: string, name: string, description: string,
    status: ProjectStatus, startDate: string, endDate: Option<string>)

  datatype BusinessInfo = BusinessInfo(profession: string, lastUpdated: string)

  datatype AppData = AppData(
    clients: seq<Client>, invoices: seq<Invoice>, projects: seq<Project>,
    businessInfo: BusinessInfo)

  const DefaultProfession: string := "Développeur Web"

  /** `initialData`, whose `lastUpdated` is stamped once, when the module is loaded. */
  function InitialData(bootTime: string): AppData {
    AppData([], [], [], BusinessInfo(DefaultProfession, bootTime))
  }

  // The tests the filters and look-ups of the data layer apply.

  function ClientIdIs(id: string): Client -> bool { (c: Client) => c.id == id }
  function ProjectIdIs(id: string): Project -> bool { (p: Project) => p.id == id }
  function InvoiceIdIs(id: string): Invoice -> bool { (i: Invoice) => i.id == id }
  function ProjectOfClient(clientId: string): Project -> bool { (p: Project) => p.clientId == clientId }
  function InvoiceOfClient(clientId: string): Invoice -> bool { (i: Invoice) => i.clientId == clientId }
  const IsPaid: Invoice -> bool := (i: Invoice) => i.status == Paid

  /** What `deleteClient` leaves: the client and everything that refers to it are gone. */
  function WithoutClient(d: AppData, clientId: string): (r: AppData)
    ensures forall c :: c in r.clients ==> c.id != clientId
    ensures forall p :: p in r.projects ==> p.clientId != clientId
    ensures forall i :: i in r.invoices ==> i.clientId != clientId
    ensures forall c :: multiset(r.clients)[c] == if c.id != clientId then multiset(d.clients)[c] else 0
    ensures forall p :: multiset(r.projects)[p] == if p.clientId != clientId then multiset(d.projects)[p] else 0
    ensures forall i :: multiset(r.invoices)[i] == if i.clientId != clientId then multiset(d.invoices)[i] else 0
    ensures IsSubsequence(r.clients, d.clients)
    ensures IsSubsequence(r.projects, d.projects)
    ensures IsSubsequence(r.invoices, d.invoices)
    ensures r.businessInfo == d.businessInfo
  {
    var keepClient, keepProject, keepInvoice :=
      Not(ClientIdIs(clientId)), Not(ProjectOfClient(clientId)), Not(InvoiceOfClient(clientId));
    assert forall c :: keepClient(c) == (c.id != clientId);
    assert forall p :: keepProject(p) == (p.clientId != clientId);
    assert forall i :: keepInvoice(i) == (i.clientId != clientId);
    d.(clients := Filter(d.clients, keepClient),
       projects := Filter(d.projects, keepProject),
       invoices := Filter(d.invoices, keepInvoice))
  }

  /** What `deleteProject` leaves: only the projects change, losing exactly those with that id. */
  function WithoutProject(d: AppData, projectId: string): (r: AppData)
    ensures forall p :: multiset(r.projects)[p] == if p.id != projectId then multiset(d.projects)[p] else 0
    ensures IsSubsequence(r.projects, d.projects)
    ensures r.clients == d.clients && r.invoices == d.invoices && r.businessInfo == d.businessInfo
  {
    d.(projects := Filter(d.projects, Not(ProjectIdIs(projectId))))
  }

  /** What `deleteInvoice` leaves: only the invoices change, losing exactly those with that id. */
  function WithoutInvoice(d: AppData, invoiceId: string): (r: AppData)
    ensures forall i :: multiset(r.invoices)[i] == if i.id != invoiceId then multiset(d.invoices)[i] else 0
    ensures IsSubsequence(r.invoices, d.invoices)
    ensures r.clients == d.clients && r.projects == d.projects && r.businessInfo == d.businessInfo
  {
    d.(invoices := Filter(d.invoices, Not(InvoiceIdIs(invoiceId))))
  }

  /** What `updateProfession` leaves: a new profession and time stamp, all else as it was. */
  function WithProfession(d: AppData, profession: string, now: string): (r: AppData)
    ensures r.businessInfo.profession == profession && r.businessInfo.lastUpdated == now
    ensures r.clients == d.clients && r.invoices == d.invoices && r.projects == d.projects
  {
    d.(businessInfo := d.businessInfo.(profession := profession, lastUpdated := now))
  }

  /** The check `importData` makes: all four top-level keys hold a truthy value (an
      empty array passes; see `Browser.Document` for what None stands for). */
  predicate HasTopLevelKeys<C, P, I, B>(doc: Document<C, P, I, B>) {
    doc.clients.Some? && doc.invoices.Some? && doc.projects.Some? && doc.businessInfo.Some?
  }

  /** What `importData` stores for a parsed text, or nothing when it refuses the text. */
  function ImportedData(text: Parse<Document<Client, Project, Invoice, BusinessInfo>>): (r: Option<AppData>)
    ensures r.Some? <==> text.Parsed? && HasTopLevelKeys(text.value)
    ensures r.Some? ==>
      && Some(r.value.clients) == text.value.clients
      && Some(r.value.invoices) == text.value.invoices
      && Some(r.value.projects) == text.value.projects
      && Some(r.value.businessInfo) == text.value.businessInfo
  {
    match text
    case Malformed(_) => None
    case Parsed(doc) =>
      if HasTopLevelKeys(doc) then
        Some(AppData(doc.clients.value, doc.invoices.value, doc.projects.value, doc.businessInfo.value))
      else None
  }

  /** The two deletes without a cascade do nothing the second time. */
  lemma DeleteProjectIdempotent(d: AppData, projectId: string)
    ensures WithoutProject(WithoutProject(d, projectId), projectId) == WithoutProject(d, projectId)
  {
    FilterIdempotent(d.projects, Not(ProjectIdIs(projectId)));
  }

  lemma DeleteInvoiceIdempotent(d: AppData, invoiceId: string)
    ensures WithoutInvoice(WithoutInvoice(d, invoiceId), invoiceId) == WithoutInvoice(d, invoiceId)
  {
    FilterIdempotent(d.invoices, Not(InvoiceIdIs(invoiceId)));
  }

  lemma DeleteClientIdempotent(d: AppData, clientId: string)
    ensures WithoutClient(WithoutClient(d, clientId), clientId) == WithoutClient(d, clientId)
  {
    FilterIdempotent(d.clients, Not(ClientIdIs(clientId)));
    FilterIdempotent(d.projects, Not(ProjectOfClient(clientId)));
    FilterIdempotent(d.invoices, Not(InvoiceOfClient(clientId)));
  }

  // Pure queries.

  /** `getRevenueTotal`: the reduce that adds the amount of each paid invoice, left to right. */
  function RevenueTotal(invoices: seq<Invoice>): real
    decreases |invoices|
  {
    if invoices == [] then 0.0
    else
      var last := invoices[|invoices| - 1];
      RevenueTotal(invoices[..|invoices| - 1]) + (if last.status == Paid then last.amount else 0.0)
  }

  /** The sum of the amounts of all the given invoices. */
  function SumAmounts(invoices: seq<Invoice>): real
    decreases |invoices|
  {
    if invoices == [] then 0.0
    else SumAmounts(invoices[..|invoices| - 1]) + invoices[|invoices| - 1].amount
  }

  lemma {:induction false} RevenueTotalAppend(a: seq<Invoice>, b: seq<Invoice>)
    ensures RevenueTotal(a + b) == RevenueTotal(a) + RevenueTotal(b)
    decreases |b|
  {
    if b == [] {
      assert a + b == a;
    } else {
      assert (a + b)[..|a + b| - 1] == a + b[..|b| - 1];
      RevenueTotalAppend(a, b[..|b| - 1]);
    }
  }

  /** The revenue is the sum of the amounts of exactly the paid invoices. */
  lemma {:induction false} RevenueIsSumOfPaid(invoices: seq<Invoice>)
    ensures RevenueTotal(invoices) == SumAmounts(Filter(invoices, IsPaid))
    decreases |invoices|
  {
    if invoices != [] {
      var init, last := invoices[..|invoices| - 1], invoices[|invoices| - 1];
      var kept := Filter(init, IsPaid);
      RevenueIsSumOfPaid(init);
      if last.status == Paid {
        assert Filter(invoices, IsPaid) == kept + [last];
        assert (kept + [last])[..|kept|] == kept;
      } else {
        assert Filter(invoices, IsPaid) == kept;
      }
    }
  }

  /** A draft or sent invoice, wherever it stands, adds nothing to the revenue. */
  lemma UnpaidAddsNothing(a: seq<Invoice>, x: Invoice, b: seq<Invoice>)
    requires x.status != Paid
    ensures RevenueTotal(a + [x] + b) == RevenueTotal(a + b)
  {
    RevenueTotalAppend(a + [x], b);
    RevenueTotalAppend(a, [x]);
    RevenueTotalAppend(a, b);
  }

  /** A single invoice contributes its amount when paid and nothing otherwise. */
  lemma RevenueOfOne(x: Invoice)
    ensures RevenueTotal([x]) == if x.status == Paid then x.amount else 0.0
  {
    assert [x][..0] == [];
  }

  /** `getClientById`: the first client with that id, if there is one. */
  function ClientById(clients: seq<Client>, id: string): (r: Option<Client>)
    ensures r.None? <==> forall k :: 0 <= k < |clients| ==> clients[k].id != id
    ensures r.Some? ==> r.value.id == id
    ensures r.Some? ==> exists k :: 0 <= k < |clients| && clients[k] == r.value && forall j :: 0 <= j < k ==> clients[j].id != id
  {
    Find(clients, ClientIdIs(id))
  }

  /** `getProjectsByClientId`: exactly the projects of that client, in their order. */
  function ProjectsByClientId(projects: seq<Project>, clientId: string): (r: seq<Project>)
    ensures forall p :: multiset(r)[p] == if p.clientId == clientId then multiset(projects)[p] else 0
    ensures IsSubsequence(r, projects)
  {
    Filter(projects, ProjectOfClient(clientId))
  }

  /** `getInvoicesByClientId`: exactly the invoices of that client, in their order. */
  function InvoicesByClientId(invoices: seq<Invoice>, clientId: string): (r: seq<Invoice>)
    ensures forall i :: multiset(r)[i] == if i.clientId == clientId then multiset(invoices)[i] else 0
    ensures IsSubsequence(r, invoices)
  {
    Filter(invoices, InvoiceOfClient(clientId))
  }

  /**
   * The store: whether a `window` (and so localStorage) exists, the module-level
   * `initialData`, and the content of the `zeipilote-data` slot.
   */
  class DataStore {
    const hasWindow: bool
    const initialData: AppData
    var slot: Slot<AppData>

    constructor (hasWindow: bool, bootTime: string, slot: Slot<AppData>)
      ensures this.hasWindow == hasWindow && initialData == InitialData(bootTime)
      ensures this.slot == slot
    {
      this.hasWindow := hasWindow;
      this.initialData := InitialData(bootTime);
      this.slot := slot;
    }

    /** What `loadData` returns in the current state. */
    function Loaded(): AppData
      reads this
    {
      if hasWindow && slot.Stored? then slot.data else initialData
    }

    /** The slot `saveData(d)` leaves: untouched without a window. */
    function SavedSlot(d: AppData): Slot<AppData>
      reads this
    {
      if hasWindow then Stored(d) else slot
    }

    /** `loadData`: the defaults without a window, for an empty slot and for an unparseable one. */
    method LoadData() returns (d: AppData)
      ensures d == Loaded()
      ensures !hasWindow || slot == Empty || slot == Corrupt ==> d == initialData
      ensures hasWindow && slot.Stored? ==> d == slot.data
    {
      if !hasWindow {
        return initialData;
      }
      match slot
      case Empty => d := initialData;
      case Corrupt => d := initialData;
      case Stored(data) => d := data;
    }

    /** `saveData`: overwrites the slot with the whole aggregate, when there is a window. */
    method SaveData(d: AppData)
      modifies this`slot
      ensures slot == old(SavedSlot(d))
      ensures hasWindow ==> Loaded() == d
    {
      if !hasWindow {
        return;
      }
      slot := Stored(d);
    }

    method UpdateProfession(profession: string, now: string)
      modifies this`slot
      ensures slot == old(SavedSlot(WithProfession(Loaded(), profession, now)))
      ensures hasWindow ==> Loaded().businessInfo.profession == profession
      ensures hasWindow ==>
        Loaded().clients == old(Loaded()).clients && Loaded().projects == old(Loaded()).projects &&
        Loaded().invoices == old(Loaded()).invoices
    {
      var data := LoadData();
      data := data.(businessInfo := data.businessInfo.(profession := profession));
      data := data.(businessInfo := data.businessInfo.(lastUpdated := now));
      SaveData(data);
    }

    /** `importData`: stores a parsed text that has the four top-level keys, and says whether it did. */
    method ImportData(text: Parse<Document<Client, Project, Invoice, BusinessInfo>>) returns (ok: bool)
      modifies this`slot
      ensures ok <==> ImportedData(text).Some?
      ensures ok ==> slot == old(SavedSlot(ImportedData(text).value))
      ensures !ok ==> slot == old(slot)
    {
      var imported := ImportedData(text);
      if imported.None? {
        return false;
      }
      SaveData(imported.value);
      return true;
    }

    method DeleteClient(clientId: string)
      modifies this`slot
      ensures slot == old(SavedSlot(WithoutClient(Loaded(), clientId)))
    {
      var data := LoadData();
      data := data.(clients := Filter(data.clients, Not(ClientIdIs(clientId))));
      data := data.(projects := Filter(data.projects, Not(ProjectOfClient(clientId))));
      data := data.(invoices := Filter(data.invoices, Not(InvoiceOfClient(clientId))));
      SaveData(data);
    }

    method DeleteProject(projectId: string)
      modifies this`slot
      ensures slot == old(SavedSlot(WithoutProject(Loaded(), projectId)))
    {
      var data := LoadData();
      data := data.(projects := Filter(data.projects, Not(ProjectIdIs(projectId))));
      SaveData(data);
    }

    method DeleteInvoice(invoiceId: string)
      modifies this`slot
      ensures slot == old(SavedSlot(WithoutInvoice(Loaded(), invoiceId)))
    {
      var data := LoadData();
      data := data.(invoices := Filter(data.invoices, Not(InvoiceIdIs(invoiceId))));
      SaveData(data);
    }
  }
}
