# DineNow core, modelled in Dafny

DineNow is an ASP.NET Core restaurant marketplace. Customers browse approved
restaurants, book tables, order food, chat with the admins and with a
restaurant's staff, and buy a premium account. Staff members manage their
restaurants and menus and pay a monthly platform bill. Admins lock accounts,
approve and delete restaurants, and decide on staff payments. Payments go
through the VNPAY gateway.

This project models the core of that system:

- the billing service: the monthly fee, building a VNPAY payment and the
  two gateway callbacks;
- the premium service;
- the order, admin, staff-billing and both report controllers;
- the admin chat and the staff chat;
- the home, reservation, restaurant and menu-item controllers.

The database is one `Entities.AppDbContext` object. Each of its tables is a
sequence of rows, kept in the order the database enumerates them, and the
request handlers are methods that modify it. Every handler that changes state
is specified by a pure function of the old tables. The lemmas prove what the
system promises about those functions: bills created once, round trips of the
payment's order information, filters that select exactly the matching rows,
charts whose bars count exactly the matching rows, and chat visibility.

Some inputs are parameters rather than operations:

- the clock (`now`);
- the signed-in user and their roles;
- the gateway's verdict on a callback;
- the bad-word filter's verdict;
- whether an identity update succeeds;
- the names under which uploaded files are stored.

Modules:

- `Wrappers`, `Tables`, `Text`, `Calendar`, `Sorting` and `Grouping` give the
  meaning of the LINQ, string, date and grouping operations the handlers use.
- `Entities` holds the rows and the database.
- `VnPay` holds the gateway's request data and the amount conversion.
- One module per service or controller holds the rest.

## Model

| member | source | states |
|---|---|---|
| VnPay.ToMinorUnits | Services/BillingService.cs:42 | `(long)(amount * 100)` truncates toward zero. It fails exactly when the result lies outside the range of `long`. |
| VnPay.WholeAmountExact | Services/BillingService.cs:42 | A whole amount of dong is sent as exactly 100 units per dong. |
| Entities.RestaurantsOf | Services/BillingService.cs:82-85 | The restaurants a staff member manages are exactly those of their staff links. |
| Entities.StaffOf | Controllers/AdminController.cs:224-227 | The staff of a restaurant are exactly the users linked to it. |
| Entities.NotificationsFor | Controllers/AdminController.cs:273-279 | There is one notification per recipient, in order, each stamped with the current time. |
| Entities.NotifyAll | Controllers/AdminController.cs:273-279 | The notification loop appends one notification per recipient and changes nothing else. |
| Entities.NewRoom | Controllers/ChatController.cs:31-38 | A new chat room has its customer and staff member set, and nothing deleted or read yet. |
| Entities.FindUserByName | Services/BillingService.cs:151 | `FindByNameAsync` finds the first account whose normalized (upper-cased) name equals the normalized name asked for. It finds none exactly when no account has such a name. |
| Entities.NormalizeNameIdempotent | Services/BillingService.cs:151 | Normalizing a name that is already normalized changes nothing. |
| Entities.FindUserByNameIgnoresCase | Services/BillingService.cs:151 | A lookup by name gives the same account as a lookup by the upper-cased name. |
| Entities.FindBill | Services/BillingService.cs:152 | `FindAsync` finds the bill with that id, and finds none exactly when no bill has it. |
| BillingService.ChargeableCountIsCalendarMonth | Services/BillingService.cs:90-98 | The window from the first of the month to the first of the next month counts exactly the confirmed reservations, at managed restaurants, dated in that calendar month. |
| BillingService.NewBillFeePositive | Services/BillingService.cs:100-105 | A staff member managing at least one restaurant owes at least 300000, so the non-positive-fee exit never fires. |
| BillingService.NewBillExample | Services/BillingService.cs:18-19 | Two restaurants and ten chargeable reservations cost 650000. |
| BillingService.ExistingBill | Services/BillingService.cs:75-76 | The lookup finds a bill of that staff member for that year and month, and finds none exactly when there is none. |
| BillingService.MonthlyFee | Services/BillingService.cs:65-122 | An empty staff id gives no bill. An existing bill for the month is returned unchanged. A staff member with no restaurants gets no bill. A month outside 1..12 throws. Otherwise the new bills table is the old one with exactly one bill appended, for that staff member and month, unpaid and not flagged paid. |
| BillingService.MonthlyFeeRepeat | Services/BillingService.cs:75-79 | A second calculation for the same month returns the bill the first one created and adds nothing. |
| BillingService.CalculateMonthlyFee | Services/BillingService.cs:65-131 | The method answers as `MonthlyFee` does and leaves the bills table that `MonthlyFee` gives. |
| BillingService.ParseCallback | Services/BillingService.cs:140-149 | A failed response, or order information that does not split into three fields, is ignored. A third field that does not parse as a 32-bit integer, after leading and trailing white space is skipped, throws. Otherwise the first field names the user and the third field is the id. |
| BillingService.OrderInfoPaddedId | Services/BillingService.cs:149 | An id padded with white space in the third field still names the same user and id. |
| Text.ParseIntPadded | Services/BillingService.cs:149 | `int.Parse` gives the same result with or without leading and trailing white space. |
| BillingService.OrderInfoRoundTrip | Services/BillingService.cs:49 | The order information a payment URL carries comes back through the callback as the same user name and id. |
| BillingService.OrderInfoUserNameWithBar | Services/BillingService.cs:144-146 | A user name containing a bar splits into four fields, so the payment is ignored. |
| BillingService.OrderInfoKindNotChecked | Services/BillingService.cs:148-149 | The middle field is never read, so a bill reference and an order reference parse alike. |
| BillingService.PaymentDataFields | Services/BillingService.cs:39-52 | Each gateway parameter is present with the value added for it. |
| BillingService.BuildPayment | Services/BillingService.cs:39-52 | The parameters of one payment are added in order. The amount conversion throws exactly when `ToMinorUnits` fails. |
| BillingService.CreateBillingPaymentUrl | Services/BillingService.cs:33-60 | The payment carries the bill's fee in minor units, the user name, "StaffBilling" and the id joined by bars, the order type "billpayment" and the StaffBilling callback URL. |
| BillingService.CreateOrderPaymentUrl | Services/BillingService.cs:166-188 | The payment carries the order total, the user name, "Order" and the id joined by bars and the Order callback URL. |
| BillingService.BillCallback | Services/BillingService.cs:136-164 | Only a completed payment of an existing user's existing bill changes the table, and it sets only that bill's status to Pending. An unparsable id throws. |
| BillingService.FindBillAfterStatusChange | Services/BillingService.cs:159 | Changing a bill's status keeps every lookup by id. |
| BillingService.BillCallbackReplay | Services/BillingService.cs:156-161 | Replaying a completed payment changes nothing more. |
| BillingService.BillCallbackOverridesDecision | Services/BillingService.cs:156-160 | A later completed payment sets an Accepted or Rejected bill back to Pending. |
| BillingService.ExecuteVnPayCallback | Services/BillingService.cs:136-164 | The response is handed back and the bills table becomes the one `BillCallback` gives. |
| BillingService.OrderCallback | Services/BillingService.cs:189-213 | Only a completed payment of an existing user's existing order changes the table, and it sets only that order's status to "Paid". |
| BillingService.OrderCallbackRevivesCanceled | Services/BillingService.cs:200-209 | A canceled order whose payment completes afterwards becomes Paid. |
| BillingService.ExecuteOrderVnPayCallback | Services/BillingService.cs:189-213 | The orders table becomes the one `OrderCallback` gives. |
| OrderController.LineFor | Controllers/OrderController.cs:58-70 | A posted line is kept exactly when its item exists and its quantity is positive. It is kept at the menu price. |
| OrderController.KeptLinesFromMenu | Controllers/OrderController.cs:56-73 | Every kept line orders a positive quantity of a menu item at that item's price. |
| OrderController.KeptLinesEmpty | Controllers/OrderController.cs:75-79 | No line is kept exactly when no posted index names a menu item with a positive quantity. |
| OrderController.LinesTotalNonNegative | Controllers/OrderController.cs:72 | Without negative prices the order total is never negative. |
| OrderController.DraftOrder | Controllers/OrderController.cs:92-101 | The draft is Pending and unpaid. Its total equals its lines and its commission is 8% of the total. |
| OrderController.CreateOrder | Controllers/OrderController.cs:42-104 | A signed-out user must log in. An empty or mismatched post is refused. With no valid line there is no draft. Otherwise the draft holds the kept lines, and no table changes. |
| OrderController.CashPaid | Controllers/OrderController.cs:140-153 | A cash order is stored as Paid with the cash method under a new id, and is otherwise the draft. |
| OrderController.VnPayPlaced | Controllers/OrderController.cs:189-203 | A VNPAY order is stored with the VNPAY method and keeps the draft's status until the callback. |
| OrderController.NewOrderRecipients | Controllers/OrderController.cs:156-176 | The customer is notified first, then exactly the staff of the order's restaurant. |
| OrderController.NotifyNewOrder | Controllers/OrderController.cs:156-176 | The two notification loops append exactly those notifications. |
| OrderController.PayCash | Controllers/OrderController.cs:138-182 | Without a draft nothing changes. Otherwise the cash-paid order is appended and its customer and staff are notified. |
| OrderController.PayVnPay | Controllers/OrderController.cs:186-231 | The order is stored and notified as `PayCash` does, then a payment for the stored order's total and id is built. |
| OrderController.CancelDecision | Controllers/OrderController.cs:252-270 | Another user's order is not found. A confirmed or canceled order is refused. Only another status leads to a cancellation. |
| OrderController.CancelOrder | Controllers/OrderController.cs:248-288 | A cancellation sets only that order's status to "Canceled" and notifies the restaurant's staff. Any other answer changes nothing. |
| OrderController.ConfirmOrder | Controllers/OrderController.cs:343-344 | Confirmation sets "Confirmed" and recomputes the 8% commission, keeping the pricing consistent. |
| OrderController.UpdateStatus | Controllers/OrderController.cs:331-349 | Only a Paid order moved to "Confirmed" changes. Every other request changes nothing. |
| OrderController.ConfirmedIsFinalForCustomer | Controllers/OrderController.cs:258-262 | A customer can never cancel a confirmed order. |
| OrderController.LifeCycleKeepsPricing | Controllers/OrderController.cs:81-101 | Every step of the order life cycle keeps the total equal to the lines and the commission at 8%. |
| OrderController.ConfirmationNeedsPayment | Controllers/OrderController.cs:331-349 | A cash order is confirmable at once. A VNPAY order is not confirmable when placed, nor after it is canceled. |
| OrderController.CallbackMakesConfirmable | Services/BillingService.cs:189-212 | A successful callback carrying a VNPAY order's information makes that order confirmable, even after it was canceled, and changes no other order. |
| AdminController.Toggled | Controllers/AdminController.cs:125-138 | A toggle flips the lockout. Locking sets a hundred-year end and records the admin. Unlocking clears both. Nothing else changes. |
| AdminController.ToggleTwiceUnlocks | Controllers/AdminController.cs:125-138 | Toggling twice leaves the account unlocked, with no lockout end and no admin recorded. |
| AdminController.LockOutlastsTheDay | Controllers/AdminController.cs:128 | A lock set now still holds one day later. |
| AdminController.ToggleLock | Controllers/AdminController.cs:114-142 | An unknown id is NotFound. A signed-out admin is refused. Otherwise only that account is toggled. |
| AdminController.Delete | Controllers/AdminController.cs:146-179 | The user's reservations, reviews, notifications, logs and AI recommendations are removed first. The account itself goes only when the identity store succeeds, and with it its staff links, which the database deletes in cascade (Data/Migrations/20251101154259_AddStaffRestaurant.cs, lines 25-30). |
| AdminController.DeletedAccountLeavesStaff | Data/Migrations/20251101154259_AddStaffRestaurant.cs:25-30 | After the cascade the deleted user manages no restaurant and is on no restaurant's staff. Every other user keeps their links. |
| AdminController.DeleteLeavesNoTrace | Controllers/AdminController.cs:155-165 | None of the user's rows is left, and no other row is lost. |
| AdminController.DeleteRestaurant | Controllers/AdminController.cs:214-283 | The restaurant, its links, menu, reviews, reservations and orders are removed. Every notification of its staff is removed, and each staff member then gets the deletion notice. |
| AdminController.DeleteRestaurantClearsStaffInbox | Controllers/AdminController.cs:259-279 | A linked staff member keeps only the deletion notice, even of notes about other restaurants. |
| AdminController.ApproveRestaurant | Controllers/AdminController.cs:288-312 | Approval sets only that restaurant's flag and notifies its staff. |
| AdminController.AdminBill | Controllers/AdminController.cs:315-341 | An empty or unknown staff id gives no bill and changes nothing. A known staff member's existing bill for the month is returned and nothing is added. Otherwise the bills table is the one the fee calculation gives. |
| AdminController.AdminBillExactlyWhenManaging | Controllers/AdminController.cs:326-335 | A known staff member gets no bill exactly when they have none for the month and manage no restaurant. A new bill is unpaid, has a positive fee, and is appended. |
| AdminController.GenerateMonthlyBill | Controllers/AdminController.cs:315-341 | The method answers as `AdminBill` does, and notifies the staff member exactly when a bill comes from the calculation. |
| AdminController.CreateBillForStaff | Controllers/AdminController.cs:344-364 | An empty id is invalid and an unknown one is not found. A bill is created exactly when the calculation yields one, and is answered by its id. A well-formed clock never crashes it. |
| AdminController.LatestBillIndex | Controllers/AdminController.cs:403-406 | The staff member's bill with the latest month is the first such bill in table order. None is found exactly when they have no bill. |
| AdminController.ManageStatus | Controllers/AdminController.cs:376-389 | The status shown is the latest bill's, or Unpaid when there is no bill. |
| AdminController.PaymentRowFor | Controllers/AdminController.cs:374-391 | A row shows the latest bill's status, whether a bill exists, and whether the staff member manages a restaurant. |
| AdminController.ManagePayment | Controllers/AdminController.cs:367-395 | There is one row per staff account, in order. |
| AdminController.Decide | Controllers/AdminController.cs:398-435 | A decision fails when the id is empty or there is no bill. Otherwise it sets only the latest bill's status. |
| AdminController.LatestBillDependsOnMonths | Controllers/AdminController.cs:403-406 | Which bill is the latest depends only on the bills' owners and months. |
| AdminController.LatestBillIgnoresStatus | Controllers/AdminController.cs:403-411 | Changing a status does not change which bill is the latest. |
| AdminController.DecideShows | Controllers/AdminController.cs:398-435 | After a decision the payment page shows it, whatever the bill's status was, even never paid. |
| AdminController.LaterDecisionWins | Controllers/AdminController.cs:398-435 | A later decision overrides an earlier one. |
| AdminController.AcceptPayment | Controllers/AdminController.cs:398-415 | The bills table becomes the one `Decide` gives for Accepted. |
| AdminController.RejectPayment | Controllers/AdminController.cs:418-435 | The bills table becomes the one `Decide` gives for Rejected. |
| AdminController.SetLatestStatus | Controllers/AdminController.cs:403-412 | The shared body sets the latest bill's status, or fails changing nothing. |
| StaffBillingController.Index | Controllers/StaffBillingController.cs:47-58 | The page lists exactly the signed-in user's bills, latest month first. |
| StaffBillingController.Pay | Controllers/StaffBillingController.cs:61-75 | An unknown bill is NotFound. A bill flagged IsPaid is refused. Otherwise the user is sent to a payment of that bill's fee. |
| StaffBillingController.NothingSetsIsPaid | Controllers/StaffBillingController.cs:67 | No operation ever sets the IsPaid flag: not bill creation, not the callback, not the admin's decision. |
| StaffBillingController.MonthlyFeeKeepsIsPaid | Services/BillingService.cs:107-117 | A newly created bill is never flagged paid. |
| StaffBillingController.CallbackKeepsIsPaid | Services/BillingService.cs:156-160 | The callback sets only the status. |
| StaffBillingController.PaidBillCanBePaidAgain | Controllers/StaffBillingController.cs:67 | A bill the gateway reported paid, or an admin accepted, still passes the gate. |
| StaffBillingController.PayableRefusesSettledBills | Controllers/StaffBillingController.cs:67 | The status gate refuses a bill once it is Pending or Accepted, and lets an unpaid bill be paid. |
| StaffBillingController.PaymentCallback | Controllers/StaffBillingController.cs:78-101 | The ledger callback is applied. A completed payment notifies every admin. The message needs the signed-in user, so without one the loop throws. |
| StaffBillingController.AdminsNotifiedWithoutBill | Controllers/StaffBillingController.cs:84-92 | A completed payment naming no known bill changes no bill, yet the admins are told of it. |
| StaffBillingController.GenerateBillAsWritten | Controllers/StaffBillingController.cs:104-130 | A signed-out user must log in. An existing bill is reported. A generated bill is appended and its owner notified. |
| StaffBillingController.GenerateBillCrashesWithoutRestaurants | Controllers/StaffBillingController.cs:122-128 | A staff member without restaurants is notified of a bill and then hits an error. |
| StaffBillingController.GenerateBillCorrectedNeverCrashes | Controllers/StaffBillingController.cs:122-128 | The corrected generation never fails. It notifies exactly when it creates this month's bill, and creates one exactly for a staff member with a restaurant and no bill yet. |
| StaffBillingController.GenerateBill | Controllers/StaffBillingController.cs:104-130 | The database follows `GenerateBillAsWritten`. |
| PremiumService.PremiumTargetRoundTrip | Services/PremiumService.cs:42-81 | The callback upgrades the buyer named in the order information, whatever the description holds. |
| PremiumService.PremiumTargetWithBar | Services/PremiumService.cs:79-83 | A user name holding a bar names another account. |
| PremiumService.CreatePremiumPaymentUrl | Services/PremiumService.cs:24-54 | The payment carries the package amount, the user name and the description joined by a bar, the package's order type and the Premium callback URL. |
| PremiumService.Upgraded | Services/PremiumService.cs:59-65 | The upgraded account is premium until `now` plus the package's days. Nothing else changes. |
| PremiumService.UpgradeToPremiumAsync | Services/PremiumService.cs:59-65 | The upgrade is kept exactly when the identity update succeeds. |
| PremiumService.PremiumCallback | Services/PremiumService.cs:70-94 | Only a completed payment naming an existing account changes the table, upgrading that account by the default package. |
| PremiumService.ExecuteVnPayCallback | Services/PremiumService.cs:70-94 | The users table becomes the one `PremiumCallback` gives. |
| PremiumService.FindUserByNameAfterUpgrade | Services/PremiumService.cs:83-90 | An upgrade keeps every lookup by name. |
| PremiumService.PremiumReplayRestartsPeriod | Services/PremiumService.cs:86-91 | The buyer is premium for 30 days. A replayed callback restarts the period instead of extending it. |
| Grouping.Keys | Controllers/ReportController.cs:101-111 | Each key some row has is listed once. |
| Grouping.LookupCountGroups | Controllers/ReportController.cs:54-74 | Looking a key up among count groups gives that key's count, or 0. |
| Grouping.CountOfGroup | Controllers/ReportController.cs:54-74 | Zero-filling reads back the number of rows with the key, which is 0 when none has it. |
| Grouping.SumOfGroup | Controllers/ReportController.cs:116-197 | Zero-filling reads back the sum over the rows with the key, which is 0 when there are none. |
| Grouping.CountOneFilter | Controllers/ReportController.cs:54-97 | Filtering, grouping by a key and reading one key back counts exactly the rows that pass the filter and have that key. |
| Grouping.SumOneFilter | Controllers/ReportController.cs:116-197 | Filtering, grouping by a key and reading one key back sums exactly over the rows that pass the filter and have that key. |
| ReportController.ChartYears | Controllers/ReportController.cs:101-111 | The yearly chart has each year with reservations once, ascending. |
| ReportController.ReservationChart | Controllers/ReportController.cs:46-111 | "Day" needs a month, and throws for a month the calendar does not have. "Month" gives 12 bars. Any other grouping gives one bar per year. |
| ReportController.DayChartCounts | Controllers/ReportController.cs:54-74 | Bar d counts exactly the reservations of day d. |
| ReportController.MonthChartCounts | Controllers/ReportController.cs:78-97 | Bar m counts exactly the reservations of month m. |
| ReportController.YearChartCounts | Controllers/ReportController.cs:101-111 | Each year's bar carries its non-zero count. |
| ReportController.AdminQueryCount | Controllers/ReportController.cs:40-44 | Counting within the query counts the confirmed reservations of the chosen restaurant. |
| ReportController.GetConfirmedReservationData | Controllers/ReportController.cs:34-112 | A day chart without a month is a bad request. It throws exactly for an impossible month. A month chart has 12 bars. |
| ReportController.ConfirmedPerDay | Controllers/ReportController.cs:34-74 | The day bar counts exactly the confirmed reservations of that day. |
| ReportController.ConfirmedPerMonth | Controllers/ReportController.cs:34-97 | The month bar counts exactly the confirmed reservations of that month. |
| ReportController.RevenueYears | Controllers/ReportController.cs:116-197 | The revenue years are the union of the years with a confirmed order or an accepted bill, ascending. |
| ReportController.GetRevenueData | Controllers/ReportController.cs:116-197 | Monthly revenue has 12 bars. Yearly revenue has one bar per revenue year. |
| ReportController.MonthlyRevenue | Controllers/ReportController.cs:116-197 | A month's revenue is the commission of the month's confirmed orders plus the fees of its accepted bills. |
| ReportController.YearlyRevenue | Controllers/ReportController.cs:116-197 | A year's revenue sums both sources over the whole year, ignoring the requested year. |
| StaffReportController.StaffQueryCount | Controllers/StaffReportController.cs:51-59 | The staff query counts the confirmed reservations of managed restaurants, and of the chosen one when there is one. |
| StaffReportController.UnmanagedRestaurantSelectsNothing | Controllers/StaffReportController.cs:51-59 | Choosing an unmanaged restaurant selects nothing. |
| StaffReportController.GetConfirmedReservationData | Controllers/StaffReportController.cs:43-131 | The staff report answers the same bad requests and crashes as the admin report, and a month chart has 12 bars. |
| StaffReportController.StaffConfirmedPerDay | Controllers/StaffReportController.cs:43-131 | A day chart has one bar per day of the month, each counting that day's confirmed reservations at managed restaurants. |
| StaffReportController.StaffConfirmedPerMonth | Controllers/StaffReportController.cs:43-131 | The month bar counts the month's confirmed reservations at managed restaurants. |
| StaffReportController.GetFoodOrderRevenue | Controllers/StaffReportController.cs:152-195 | Only monthly grouping is accepted, giving 12 bars. |
| StaffReportController.OrderQueryMonthSum | Controllers/StaffReportController.cs:152-195 | The grouped sum of a month read back from the staff order query is the net amount summed over the confirmed orders of managed (and chosen) restaurants created in that month. |
| StaffReportController.StaffMonthlyRevenue | Controllers/StaffReportController.cs:152-195 | A month's bar is the total less commission of the month's confirmed orders at managed restaurants. |
| ChatController.HideFor | Controllers/ChatController.cs:226-237 | Deleting for one side sets that side's flag and clearing time, leaving the other sides unchanged. |
| ChatController.ShowFor | Controllers/ChatController.cs:126-127 | Showing a room again clears that side's flag and keeps every clearing time. |
| ChatController.Visible | Controllers/ChatController.cs:139-174 | A viewer sees exactly the room's messages after their last clearing, oldest first. |
| ChatController.ClearingHidesEarlierMessages | Controllers/ChatController.cs:155-160 | Clearing a room at t hides every message posted at or before t. |
| ChatController.HasNewMessage | Controllers/ChatController.cs:198-204 | A room is flagged exactly when a customer message is newer than both the read mark and the last clearing. |
| ChatController.ReadingClearsNewFlag | Controllers/ChatController.cs:67-68 | Opening the room now clears the flag. |
| ChatController.Warned | Controllers/ChatController.cs:112-123 | A flagged customer message adds one warning, and the fifth deactivates and stamps the account. |
| ChatController.FifthWarningLocks | Controllers/ChatController.cs:112-123 | An account stays active through four flagged messages and is deactivated by the fifth. |
| ChatController.AdminChatSend | Controllers/ChatController.cs:78-135 | A locked sender is refused. A non-admin may post only in their own room. A flagged message is stored and warns its customer sender. Posting shows the room again to the admins. |
| ChatController.Send | Controllers/ChatController.cs:78-135 | The database follows `AdminChatSend`. |
| ChatController.CustomerMessageReopensRoom | Controllers/ChatController.cs:126-127 | A customer's message brings a room the admins deleted back into their list. |
| ChatController.FindRoomAfterUpdate | Controllers/ChatController.cs:126-129 | Updating a room keeps every lookup by id. |
| ChatController.GetOrCreate | Controllers/ChatController.cs:28-40 | The first matching room is returned. Otherwise a new room is appended. |
| ChatController.GetOrCreateOnce | Controllers/ChatController.cs:28-40 | Afterwards exactly one room matches, and a second lookup returns it and creates nothing. |
| ChatController.OpenAdminChat | Controllers/ChatController.cs:23-43 | A signed-out customer is refused. A customer with a room of any kind opens their first one. A customer with no room throws, because the room added without a staff id cannot be saved. The table never changes. |
| ChatController.FirstAdminChatThrows | Data/Migrations/20251208075651_AddStaffToChatRoom.cs:33-38 | The room a first visit would add has no staff id, which the NOT NULL column refuses, so every first visit throws, whenever it is made. |
| ChatController.Customer | Controllers/ChatController.cs:23-43 | The answer and the ChatRooms table follow `OpenAdminChat`. |
| ChatController.CustomerOpensStaffRoom | Controllers/ChatController.cs:28-29 | A customer whose first room is with a staff member gets that room as the admin chat. |
| ChatController.CustomerGetsAdminRoom | Controllers/ChatController.cs:28-39 | With the corrected lookup, which also takes an empty staff id as no staff member, and a new room stored with the empty staff id, the customer always lands in a storable admin room of their own. An existing one is reused, a new one is created at most once, and every room stays storable. |
| ChatController.Admin | Controllers/ChatController.cs:48-72 | Opening a room requires an admin and marks it read by the admins now. |
| ChatController.Load | Controllers/ChatController.cs:139-174 | An unknown room gives an empty list. A non-admin loads only their own room. Each side sees its own visible messages. |
| ChatController.AdminRows | Controllers/ChatController.cs:197-204 | There is one row per room, carrying that room's new-message flag. |
| ChatController.Rooms | Controllers/ChatController.cs:179-208 | A signed-out request throws, because the role check gets no account. A non-admin is forbidden. The admins list exactly the rooms they have not deleted, one row each, in table order, each with its flag. |
| ChatController.DeleteChat | Controllers/ChatController.cs:213-242 | A delete hides the room for the caller's side only. There is no ownership check. |
| ChatController.AdminDeleteHidesRoom | Controllers/ChatController.cs:226-237 | A room the admins delete leaves their list, and its earlier messages leave their view. |
| StaffChatController.OpenStaffChat | Controllers/StaffChatController.cs:23-57 | A signed-out user is refused. A restaurant without staff is refused. A missing staff account throws. A non-staff account is refused. Otherwise the customer's room with that staff member is found or created. |
| StaffChatController.CustomerChat | Controllers/StaffChatController.cs:23-57 | The database follows `OpenStaffChat`. |
| StaffChatController.CustomerChatTwice | Controllers/StaffChatController.cs:41-52 | Opening the chat twice lands in the same room and creates nothing the second time. |
| StaffChatController.Staff | Controllers/StaffChatController.cs:62-86 | A staff member opens only their own room, which marks it read by them now. |
| StaffChatController.StaffChatSend | Controllers/StaffChatController.cs:92-146 | Only the room's participants post. A flagged customer message warns the sender. Posting shows the room again to the sender's own side only. |
| StaffChatController.Send | Controllers/StaffChatController.cs:92-146 | The database follows `StaffChatSend`. |
| StaffChatController.CustomerMessageKeepsStaffDeletion | Controllers/StaffChatController.cs:138-139 | A customer's message does not bring back a room the staff member deleted. |
| StaffChatController.Load | Controllers/StaffChatController.cs:151-186 | Only participants load a room. Each sees the messages after their own clearing. |
| StaffChatController.StaffRows | Controllers/StaffChatController.cs:209-214 | There is one row per room, carrying the staff member's new-message flag. |
| StaffChatController.StaffRooms | Controllers/StaffChatController.cs:191-218 | A staff member lists exactly their rooms they have not deleted, once each and in table order, each with its flag. A caller who is not staff gets nothing. |
| StaffChatController.DeleteChat | Controllers/StaffChatController.cs:224-249 | A delete hides the room for the caller's side only, participant or not. |
| StaffChatController.StaffDeleteIsOneSided | Controllers/StaffChatController.cs:224-249 | A staff member's delete hides the room and its earlier messages from them only, leaving the customer's view unchanged. |
| HomeController.DisplayedRating | Controllers/HomeController.cs:87-89 | A restaurant's rating is its review average, or 0 without reviews. |
| HomeController.IndexQueryChain | Controllers/HomeController.cs:44-80 | Each optional Where adds its condition to the conjunction. |
| HomeController.IndexQueryMatches | Controllers/HomeController.cs:44-80 | The filter chain selects, in table order, exactly the approved restaurants that match every given filter. |
| HomeController.Index | Controllers/HomeController.cs:35-144 | The page lists exactly the matching restaurants with their ratings. A signed-in user gets exactly their favourite ids, and collaborative filtering from their third review on. |
| HomeController.FavoriteIdsOf | Controllers/HomeController.cs:117-120 | A user's favourite ids are exactly the restaurants of their favourite rows. |
| HomeController.UnreviewedNeverRated | Controllers/HomeController.cs:69-73 | With a rating filter, a restaurant nobody reviewed is never listed. |
| HomeController.Detail | Controllers/HomeController.cs:147-179 | An unknown id is NotFound. The analysis panel is shown exactly to admins and to the restaurant's staff. |
| HomeController.Toggled | Controllers/HomeController.cs:252-281 | A toggle removes the pair's first copy, or appends the pair when it is absent. |
| HomeController.ToggleTwice | Controllers/HomeController.cs:252-281 | The answer says whether the pair is now present. A second toggle restores the table's contents. |
| HomeController.ToggleFavorite | Controllers/HomeController.cs:252-281 | A signed-out user is refused. Otherwise the table follows `Toggled` and the answer reports presence. |
| ReservationController.LogEntry | Controllers/ReservationController.cs:24-35 | A log entry records the user, action and time. Its description defaults to "<action> thành công". |
| ReservationController.RestaurantName | Controllers/ReservationController.cs:92-95 | The log names the restaurant, or "ID <id>" when it is gone. |
| ReservationController.LinkedStaff | Controllers/ReservationController.cs:76-90 | A staff link is added only when absent. The staff member then manages exactly their old restaurants plus this one. |
| ReservationController.Create | Controllers/ReservationController.cs:52-108 | An invalid form changes nothing. Otherwise the booking is stored under a new id and the user's id, a staff booker is linked, and a log line is written. |
| ReservationController.BookingFacts | Controllers/ReservationController.cs:70-90 | The new booking is the only one with its id and keeps its posted status. A staff booker manages the restaurant, and no link is duplicated. |
| ReservationController.StatusEmail | Controllers/ReservationController.cs:185-215 | Only "Confirmed" gets the acceptance subject and colour. Every other status gets the refusal. |
| ReservationController.PendingMailsRefusal | Controllers/ReservationController.cs:185-215 | A booking moved back to Pending is mailed as refused, while its log says it was updated. |
| ReservationController.UpdateStatus | Controllers/ReservationController.cs:156-220 | A missing booking is NotFound. Otherwise only its status changes, a log line is written, and the customer is mailed when they have an address. |
| ReservationController.StatusUpdateOnlyChangesStatus | Controllers/ReservationController.cs:165 | A status update keeps every other field and every lookup by id. |
| RestaurantController.UploadedUrls | Controllers/RestaurantController.cs:42-57 | Every URL is a non-empty upload's, under the restaurant image folder, and every non-empty upload has one. |
| RestaurantController.UploadedUrlsInOrder | Controllers/RestaurantController.cs:42-57 | The URLs are exactly the non-empty uploads' URLs in upload order, as many as there are non-empty uploads. |
| RestaurantController.SaveUploads | Controllers/RestaurantController.cs:42-57 | The upload loop gives exactly `UploadedUrls`. |
| RestaurantController.ImageUrlRoundTrip | Controllers/RestaurantController.cs:60 | Splitting the stored picture field at ';' gives back the uploaded URLs. |
| RestaurantController.NewRestaurant | Controllers/RestaurantController.cs:63-86 | A new restaurant gets an unused id and the joined URLs. It is approved exactly when no staff member adds it. |
| RestaurantController.Create | Controllers/RestaurantController.cs:35-92 | An invalid form changes nothing. Otherwise the restaurant is appended, and a staff member's restaurant is linked to them. |
| RestaurantController.StaffRestaurantAwaitsApproval | Controllers/RestaurantController.cs:63-86 | A staff member's new restaurant is theirs to manage but stays off the public list. |
| RestaurantController.Edited | Controllers/RestaurantController.cs:113-145 | The edited fields come from the form, phone and opening hours are kept, and a staff edit withdraws approval. |
| RestaurantController.Edit | Controllers/RestaurantController.cs:104-153 | A mismatched or unknown id is NotFound. An invalid form changes nothing. Otherwise the restaurant is replaced by its edit. |
| RestaurantController.StaffEditWithdrawsListing | Controllers/RestaurantController.cs:113-145 | A staff edit takes the restaurant off the public list and leaves every other listing as it was. |
| MenuItemController.CreateFromFacts | Controllers/MenuItemController.cs:40-67 | The batch fails exactly when a non-blank row lacks a value. Otherwise it keeps the table and adds one dish per non-blank name, in order. |
| MenuItemController.KeptRowsExact | Controllers/MenuItemController.cs:40-42 | The rows the batch keeps are exactly the rows with a non-blank name, in form order. |
| MenuItemController.CreateFromRows | Controllers/MenuItemController.cs:40-67 | On success the old table is a prefix and the t-th new dish is the t-th kept row: its restaurant, name, description, price, category and uploaded picture. |
| MenuItemController.PrependRow | Controllers/MenuItemController.cs:58-66 | Adding the dish of one row in front of the dishes of the later rows keeps the row-by-row correspondence. |
| MenuItemController.CreateMultiple | Controllers/MenuItemController.cs:32-71 | The table becomes the one `CreateFrom` gives, or stays unchanged when a row throws. |
| MenuItemController.EditFromFacts | Controllers/MenuItemController.cs:97-120 | An edit keeps the rows in place. Ids, restaurants and categories are kept, unlisted dishes are unchanged, and pictures change only when uploaded. |
| MenuItemController.EditFromRows | Controllers/MenuItemController.cs:97-120 | A dish that changed takes the name, price and description of a row listing its id. A changed picture is the upload of a row listing its id. |
| MenuItemController.Edit | Controllers/MenuItemController.cs:89-124 | The table becomes the one `EditFrom` gives, or stays unchanged when a row throws. |
| MenuItemController.Delete | Controllers/MenuItemController.cs:129-140 | A missing dish is NotFound. Otherwise that row is removed and its restaurant returned. |
| MenuItemController.DeleteRemovesOnlyThatDish | Controllers/MenuItemController.cs:129-140 | With unique ids the dish is gone and every other dish remains. |
| MenuItemController.WithMenuPhotos | Controllers/MenuItemController.cs:152-175 | There is one photo dish of the restaurant per non-empty image, and the old table is kept as a prefix. |
| MenuItemController.MenuPhotosInOrder | Controllers/MenuItemController.cs:152-175 | The new dishes' image URLs are the non-empty images' stored names under the menu upload folder, in upload order. |
| MenuItemController.UploadMenuImage | Controllers/MenuItemController.cs:144-179 | No images is a bad request. Otherwise the table becomes the one `WithMenuPhotos` gives. |

## Left out

- Floating point is not modelled. This covers the review sentiment scores, AI recommendation scores, cosine similarity in collaborative filtering and the toxicity threshold of the bad-word filter. Recommendations and the filter's verdict are inputs.
- VnPayLibrary (hashing, signing and URL building) is not part of this model. `VnPayLibrary.AddRequestData` is modelled as a map update. The payment URL is given as the map of its parameters.
- `PaymentExecute` is an input, given as its response: whether the signature checks out, the response code and the order information.
- Persistence is abstracted. `SaveChangesAsync` is a table assignment, and new identity ids are one more than the largest id. `BillingService.CalculateMonthlyFee`: the duplicate-key catch at lines 124-130 is not modelled, because ids never collide in the model.
- Reading email templates, sending mail and writing uploaded files are not modelled. An upload is its length and the name it is stored under, which is an input. The email is returned as a value.
- Notification, log and page message texts are modelled only where a property depends on them. Elsewhere a notification is its recipient and time.
- `Contains` in the home filters is exact substring matching. Database collation, which may ignore case, is not modelled.
- `HomeController.Index`: the Cities and Cuisines dropdowns are not modelled. Neither is the collision of dictionary keys, since ids are unique.
- `ChatController.Load` and `StaffChatController.Staff`: the sender and customer display names looked up for the view are not modelled.
- `ReportController.YearChart`: years are ordered numerically, whereas the source orders the labels. The two agree for years with the same number of digits.
- Calendar: the 9999 year bound of `DateTime` is not modelled.
- `PremiumService.UpgradeToPremiumAsync`: durations are natural numbers, because a negative duration is not meaningful for a package.
- `AdminController.ToggleLock` requires a well-formed clock, because adding a hundred years needs a valid date.
- Roles (Admin, Staff) are inputs: booleans, or the set of staff accounts. `GetUserAsync` is the signed-in id together with the account lookup by id.
- `ReservationController.Create`: the booking time's rendering in the log line is an input string.
- `Entities.NormalizeName`: only the ASCII letters a-z are upper-cased. The invariant-culture mapping of other letters (accented Vietnamese letters among them) is not modelled.
- `Text.ParseInt`: the white space skipped is the ASCII space and the characters tab to carriage return. Trailing NUL characters and other Unicode white space, which .NET also skips, are not modelled.
- Concurrency between requests is not modelled. Each handler runs to completion on the tables it reads.
- The account, premium-page, profile and review controllers, and the AI and sentiment services, are not part of this model.

## Findings

| source | as written | input that shows it | evidently intended | confidence | as-written member | corrected member |
|---|---|---|---|---|---|---|
| Controllers/StaffBillingController.cs:122-128 | `GenerateBill` saves the "bill created" notification, then reads `bill.TotalFee` of a null bill | A signed-in staff member with no managed restaurant and no bill this month | Report that there is nothing to bill, and notify nobody | not executed | StaffBillingController.GenerateBillCrashesWithoutRestaurants | StaffBillingController.GenerateBillCorrectedNeverCrashes |
| Controllers/StaffBillingController.cs:67 | `Pay` refuses only bills flagged `IsPaid`, a flag that nothing sets | A bill the gateway reported paid (Pending) or an admin Accepted | Gate on the status: only Unpaid or Rejected bills may be paid | not executed | StaffBillingController.PaidBillCanBePaidAgain | StaffBillingController.PayableRefusesSettledBills |
| Controllers/ChatController.cs:28-29 | The admin chat opens the customer's first room of any kind | A customer whose only room is with a restaurant's staff member | Look up the customer's room that has no staff member | not executed | ChatController.CustomerOpensStaffRoom | ChatController.CustomerGetsAdminRoom |
| Controllers/ChatController.cs:33-39 | The admin chat's new room never sets StaffId, a NOT NULL column since migration 20251208075651 (lines 33-38), so saving it fails | A signed-in customer with no chat room opens the admin chat | Store the admin room with an empty staff id, and take an empty staff id as an admin room when looking one up | not executed | ChatController.FirstAdminChatThrows | ChatController.CustomerGetsAdminRoom |
