/** Result codes of the OpenCL entry points that are modelled. */
module ClTypes {
  datatype ClCode =
    | CL_SUCCESS
    | CL_DEVICE_NOT_FOUND
    | CL_OUT_OF_RESOURCES
    | CL_OUT_OF_HOST_MEMORY
    | CL_EXEC_STATUS_ERROR_FOR_EVENTS_IN_WAIT_LIST
    | CL_MISALIGNED_SUB_BUFFER_OFFSET
    | CL_INVALID_VALUE
    | CL_INVALID_DEVICE_TYPE
    | CL_INVALID_PLATFORM
    | CL_INVALID_DEVICE
    | CL_INVALID_MEM_OBJECT
    | CL_INVALID_QUEUE_PROPERTIES
    | CL_INVALID_COMMAND_QUEUE
    | CL_INVALID_PROGRAM
    | CL_INVALID_ARG_INDEX
    | CL_INVALID_ARG_VALUE
    | CL_INVALID_EVENT
    | CL_INVALID_EVENT_WAIT_LIST
    | CL_INVALID_OPERATION
    | CL_INVALID_BUFFER_SIZE
    | CL_OTHER_ERROR(code: int)
}
