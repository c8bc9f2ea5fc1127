/** The records kept in the application state. Money and quantities are in hundredths, dates are day numbers. */
module Entities {
  import opened Folds
  import opened Inventory
  import opened Taxes

  type Date = int

  datatype Tenant = Tenant(suspended: bool)

  datatype Branch = Branch(tenantId: Id, gstin: Option<string>)

  datatype Product = Product(tenantId: Id, sellingPrice: int, taxRate: int)

  datatype CatalogOverride =
    CatalogOverride(tenantId: Id, branchId: Id, productId: Id, sellingPrice: Option<int>, active: bool)

  datatype ReorderRule = ReorderRule(tenantId: Id, branchId: Id, productId: Id, minStock: int, targetStock: int)

  datatype Supplier = Supplier(tenantId: Id, name: string, gstin: Option<string>, termsDays: int)

  datatype Customer =
    Customer(tenantId: Id, gstin: Option<string>, visitCount: int, lifetimeValue: int, lastSaleId: Option<Id>)

  datatype CashSession =
    CashSession(tenantId: Id, branchId: Id, open: bool, openingFloat: int, cashSales: int, expectedClose: int,
                closing: Option<int>, variance: Option<int>)

  datatype OrderLine = OrderLine(productId: Id, quantity: int, unitCost: int)

  datatype Approval = NotRequested | PendingApproval | Approved | Rejected

  datatype PurchaseOrder =
    PurchaseOrder(id: Id, tenantId: Id, branchId: Id, supplierId: Id, lines: seq<OrderLine>, status: Approval,
                  requestedOn: Option<Date>, decidedOn: Option<Date>, approvedOn: Option<Date>)

  datatype GoodsReceipt =
    GoodsReceipt(id: Id, tenantId: Id, branchId: Id, orderId: Id, supplierId: Id, receivedOn: Date, lines: seq<OrderLine>)

  datatype BatchLot =
    BatchLot(id: Id, tenantId: Id, branchId: Id, receiptId: Id, orderId: Id, productId: Id, batchNumber: string,
             quantity: int, writtenOff: int, expiry: Date)

  datatype PurchaseInvoice =
    PurchaseInvoice(id: Id, tenantId: Id, branchId: Id, receiptId: Id, orderId: Id, supplierId: Id, invoiceDate: Date,
                    dueDate: Date, termsDays: int, number: string, totals: Totals, lines: seq<OrderLine>)

  datatype VendorDispute =
    VendorDispute(id: Id, tenantId: Id, branchId: Id, supplierId: Id, receiptId: Option<Id>, invoiceId: Option<Id>,
                  disputeType: string, open: bool, openedOn: Date, resolvedOn: Option<Date>)

  datatype SupplierReturnNote =
    SupplierReturnNote(tenantId: Id, branchId: Id, invoiceId: Id, supplierId: Id, returnedOn: Date, number: string,
                       totals: Totals, lines: seq<Line>)

  datatype SupplierPayment =
    SupplierPayment(id: Id, tenantId: Id, branchId: Id, invoiceId: Id, supplierId: Id, number: string, paidOn: Date,
                    amount: int, paymentMethod: string, outstandingAfter: int)

  datatype SaleLine = SaleLine(productId: Id, quantity: int, unitPrice: int)

  datatype Invoice =
    Invoice(tenantId: Id, branchId: Id, number: string, customerGstin: Option<string>, subtotal: int, tax: Tax,
        grandTotal: int)

  datatype Sale =
    Sale(id: Id, tenantId: Id, branchId: Id, invoiceId: Id, customerId: Option<Id>, paymentMethod: string,
        sessionId: Option<Id>, paymentAmount: int, lines: seq<SaleLine>)

  datatype CreditNote =
    CreditNote(tenantId: Id, branchId: Id, saleReturnId: Id, number: string, subtotal: int, tax: Tax, grandTotal: int)

  datatype CustomerReturnNote =
    CustomerReturnNote(tenantId: Id, branchId: Id, saleId: Id, refundApproved: bool, creditNoteId: Id, refund: int)

  datatype Exchange =
    Exchange(tenantId: Id, branchId: Id, saleId: Id, returnTotal: int, replacementTotal: int, paymentMethod: string,
             sessionId: Option<Id>, direction: Direction, balance: int)

  datatype Transfer = Transfer(tenantId: Id, source: Id, destination: Id, lines: seq<Line>)

  datatype StockCount = StockCount(tenantId: Id, branchId: Id, reason: string, lines: seq<CountLine>)
}
