/** The states of a process in the scheduler (kernel_scheduler/src/lib/globalesKernelScheduler.h). */
module Estados {

  datatype Estado = New | Ready | Exec | Block | SuspBlock | SuspReady | Exit
}
