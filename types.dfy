/**
 * The record shapes of src/types/index.ts, which the PDF report reads and the landing
 * page's import check inspects: invoices carry a `total` and an optional `reference`, projects an optional
 * `budget`, the business information a `name`, and the aggregate optional settings.
 */
module Types {
  import opened Wrappers

  datatype BusinessInfo = BusinessInfo(name: string, profession: string, lastUpdated: string)

  datatype InvoiceStatus = Draft | Sent | Paid

  datatype Item = Item(description: string, quantity: real, price: real)

  datatype Invoice = Invoice(
    id: string, date: string, client: string, clientId: string, reference: Option<string>,
    total: real, items: seq<Item>, status: InvoiceStatus, dueDate: string, amount: real)

  datatype Client = Client(
    id: string, name: string, email: string,
    phone: Option<string>, address: Option<string>, createdAt: string)

  datatype Project = Project(
    id: string, name: string, client: string, clientId: string, status: string,
    budget: Option<real>, createdAt: string)

  datatype Settings = Settings(currency: string, currencyFormat: string)

  datatype AppData = AppData(
    clients: seq<Client>, invoices: seq<Invoice>, projects: seq<Project>,
    businessInfo: BusinessInfo, settings: Option<Settings>)
}
