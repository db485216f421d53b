/** The enumerations of the shared REST library that memberships use. */
module Enum {

  datatype Tier = TierNull | TierStandard | TierPremium

  datatype Cycle = CycleNull | CycleMonth | CycleYear

  datatype PayMethod = PayMethodNull | PayMethodAli | PayMethodWx | PayMethodStripe | PayMethodApple | PayMethodB2B

  datatype SubsStatus = SubsStatusNull | SubsStatusActive | SubsStatusIncomplete | SubsStatusPastDue | SubsStatusCanceled | SubsStatusUnpaid

  datatype SnapshotReason = SnapshotReasonNull | SnapshotReasonRenew | SnapshotReasonUpgrade | SnapshotReasonB2B
}
