/** The "Add Order" button shown on some tabs. */
module ButtonWrappers {
  import opened TabActives
  import NewOrder

  /** The register name the button activates; it is the name that opens the
      new-order dialog. */
  const OrderButtonName: string := "order"

  /** The button renders on the "Dashboard" and "Orders" tabs and nowhere else. */
  predicate ShowsAddOrder(activeTab: string)
  {
    activeTab == "Dashboard" || activeTab == "Orders"
  }

  lemma ShowsAddOrderExactly(activeTab: string)
    ensures ShowsAddOrder("Dashboard") && ShowsAddOrder("Orders")
    ensures activeTab != "Dashboard" && activeTab != "Orders" ==> !ShowsAddOrder(activeTab)
  {
  }

  /** A click on the button activates "order", which opens the order dialog. */
  method Click(register: ButtonRegister)
    modifies register
    ensures register.activeButtonName == Common.Some(OrderButtonName)
    ensures NewOrder.DialogOpen(register.activeButtonName)
  {
    register.Activate(OrderButtonName);
  }
}
